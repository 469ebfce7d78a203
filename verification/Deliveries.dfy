/** Completed services keep the safety invariant, and a delivery never ships a demand twice. */
module Deliveries {
  import opened Collections
  import opened Factory
  import opened Custody
  import opened Safety
  import opened Components
  import opened Operations

  // -- loading ---------------------------------------------------------------------------------

  ghost predicate LoadingAt(c: Scenario, s: State, v: AgvId, j: JobId, p: Place)
    requires WellFormed(c)
  {
    && v in s.agvs && s.agvs[v].service.Some? && j in s.jobs && p in s.storage
    && s.agvs[v].service.value.kind == Pickup && s.agvs[v].service.value.job == j && s.agvs[v].service.value.place == p
    && VehicleOk(c, s.jobs, s.agvs[v]) && RowFits(c, j, s.jobs[j])
  }

  lemma LoadedVehicles(c: Scenario, jobs: map<JobId, JobRow>, agvs: map<AgvId, AgvRow>, v: AgvId, j: JobId, row: JobRow, a: AgvRow)
    requires VehiclesOk(c, jobs, agvs) && v in agvs && j in jobs && row.step == jobs[j].step
    requires VehicleOk(c, jobs, agvs[v]) && Loading(agvs[v], j)
    requires a == agvs[v].(job := Some(j), service := None, target := None)
    ensures VehiclesOk(c, jobs[j := row], agvs[v := a])
  {
    var quiet := agvs[v].(service := None, target := None);
    VehicleSet(c, jobs, agvs, v, quiet);
    forall w | w in agvs && w != v ensures !Loading(agvs[w], j) {
      assert Compatible(agvs[v], agvs[w]);
    }
    VehiclesJobMoved(c, jobs, agvs[v := quiet], j, row);
    VehicleSet(c, jobs[j := row], agvs[v := quiet], v, a);
    assert agvs[v := quiet][v := a] == agvs[v := a];
  }

  lemma LoadedControl(c: Scenario, jobs: map<JobId, JobRow>, agvs: map<AgvId, AgvRow>, tasks: map<AgvId, Assignment>,
                      v: AgvId, j: JobId, row: JobRow, a: AgvRow)
    requires ControlOk(c, jobs, agvs, tasks) && v in agvs && j in jobs && row.step == jobs[j].step
    requires VehicleOk(c, jobs, agvs[v]) && Loading(agvs[v], j)
    requires forall w :: w in agvs && w != v ==> !Loading(agvs[w], j) && agvs[w].job != Some(j)
    requires a == agvs[v].(job := Some(j), service := None, target := None)
    ensures ControlOk(c, jobs[j := row], agvs[v := a], tasks)
  {
    var after := agvs[v := a];
    assert tasks != map[] ==> TargetAssigned(agvs, tasks, v);
    forall w | w in tasks ensures AssignmentOk(c, jobs[j := row], after[w], tasks[w]) {
      assert AssignmentOk(c, jobs, agvs[w], tasks[w]);
      if w != v {
        assert AssignmentOk(c, jobs, agvs[v], tasks[v]);
        assert OtherJob(tasks[v], tasks[w]);
      }
    }
    if c.central {
      forall w | w in after ensures TargetAssigned(after, tasks, w) { assert TargetAssigned(agvs, tasks, w); }
    }
  }

  lemma LoadedSupplies(c: Scenario, jobs: map<JobId, JobRow>, agvs: map<AgvId, AgvRow>, tasks: map<AgvId, Assignment>,
                       v: AgvId, j: JobId, row: JobRow, a: AgvRow)
    requires SuppliesCover(c, jobs, agvs, tasks) && v in agvs && j in jobs && row.loc == OnAgv(v)
    requires VehicleOk(c, jobs, agvs[v]) && Loading(agvs[v], j)
    requires a == agvs[v].(job := Some(j), service := None, target := None)
    requires v in tasks ==> AssignmentOk(c, jobs, agvs[v], tasks[v])
    ensures SuppliesCover(c, jobs[j := row], agvs[v := a], tasks)
  {
    forall b | IsSource(c, b) ensures SourceCovered(c, jobs[j := row], agvs[v := a], tasks, b) {
      assert SourceCovered(c, jobs, agvs, tasks, b);
      SupplyAfter(c, jobs, j, row, b);
      CommitsAfter(agvs, tasks, agvs[v := a], tasks, v, b);
    }
  }

  lemma LoadedStations(c: Scenario, jobs: map<JobId, JobRow>, agvs: map<AgvId, AgvRow>, tasks: map<AgvId, Assignment>,
                       v: AgvId, j: JobId, row: JobRow, a: AgvRow)
    requires WellFormed(c) && StationsFit(c, jobs, agvs, tasks) && v in agvs && j in jobs && row.loc == OnAgv(v)
    requires agvs[v].target.Some? && a == agvs[v].(job := Some(j), service := None, target := None)
    ensures StationsFit(c, jobs[j := row], agvs[v := a], tasks)
  {
    forall m | m in c.machines ensures StationFits(c, jobs[j := row], agvs[v := a], tasks, m) {
      assert StationFits(c, jobs, agvs, tasks, m);
      assert GoodMachine(c, m);
      LoadAfter(c, jobs, j, row, m);
      CommitsAfter(agvs, tasks, agvs[v := a], tasks, v, c.pre[m]);
    }
  }

  /** Facts about the job a vehicle is loading. */
  lemma LoadingFacts(c: Scenario, s: State, v: AgvId)
    requires WellFormed(c) && Inv(c, s) && v in s.agvs && s.agvs[v].service.Some? && s.agvs[v].service.value.kind.Pickup?
    ensures var x := s.agvs[v].service.value; LoadingAt(c, s, v, x.job, x.place) && KnownPlace(c, x.place)
    ensures var j := s.agvs[v].service.value.job;
            forall w :: w in s.agvs && w != v ==> !Loading(s.agvs[w], j) && s.agvs[w].job != Some(j)
    ensures v in s.assignments ==> AssignmentOk(c, s.jobs, s.agvs[v], s.assignments[v])
  {
    var x := s.agvs[v].service.value;
    assert VehicleOk(c, s.jobs, s.agvs[v]) && KnownPlace(c, x.place) && RowFits(c, x.job, s.jobs[x.job]);
    forall w | w in s.agvs && w != v ensures !Loading(s.agvs[w], x.job) && s.agvs[w].job != Some(x.job) {
      assert Compatible(s.agvs[v], s.agvs[w]);
      assert AgvNames(s.jobs, s.agvs, w);
    }
    if v in s.assignments { assert AssignmentOk(c, s.jobs, s.agvs[v], s.assignments[v]); }
  }

  lemma PickUpKeeps(c: Scenario, s: State, v: AgvId)
    requires WellFormed(c) && Inv(c, s) && v in s.agvs && s.agvs[v].service.Some? && s.agvs[v].service.value.kind.Pickup?
    requires s.agvs[v].service.value.job in s.jobs && s.agvs[v].service.value.place in s.storage
    ensures Inv(c, PickUp(s, v, s.agvs[v].service.value.job, s.agvs[v].service.value.place))
  {
    hide JobsOk, MachinesOk, StationsFit, SuppliesCover, LocksFit, ControlOk, LedgerOk, Custodial;
    LoadingFacts(c, s, v);
    var j, p := s.agvs[v].service.value.job, s.agvs[v].service.value.place;
    var t := PickUp(s, v, j, p);
    var row, a := t.jobs[j], t.agvs[v];
    JobSet(c, s.jobs, j, row);
    MachinesJobMoved(c, s.jobs, s.machines, j, row);
    LoadedVehicles(c, s.jobs, s.agvs, v, j, row, a);
    LoadedControl(c, s.jobs, s.agvs, s.assignments, v, j, row, a);
    LoadedStations(c, s.jobs, s.agvs, s.assignments, v, j, row, a);
    LoadedSupplies(c, s.jobs, s.agvs, s.assignments, v, j, row, a);
    HolderOf(s.jobs, s.queue, s.storage, s.machines, s.agvs, j);
    LocksVehicleSet(c, s.storage, s.agvs, v, a);
    LocksTake(c, s.storage, t.agvs, p, j);
    LedgerJobMoved(c, s.jobs, s.ledger, j, row);
    LoadedHeld(s.jobs, s.queue, s.storage, s.machines, s.agvs, j, row, v, a, p);
  }

  // -- unloading -------------------------------------------------------------------------------

  ghost predicate UnloadingAt(c: Scenario, s: State, v: AgvId, j: JobId, p: Place)
    requires WellFormed(c)
  {
    && v in s.agvs && s.agvs[v].service.Some? && j in s.jobs && p in s.storage
    && s.agvs[v].service.value.kind == DropOff && s.agvs[v].service.value.job == j && s.agvs[v].service.value.place == p
    && VehicleOk(c, s.jobs, s.agvs[v]) && RowFits(c, j, s.jobs[j]) && s.jobs[j].loc == OnAgv(v)
  }

  lemma UnloadedVehicles(c: Scenario, jobs: map<JobId, JobRow>, agvs: map<AgvId, AgvRow>, v: AgvId, j: JobId, row: JobRow, a: AgvRow)
    requires VehiclesOk(c, jobs, agvs) && v in agvs && j in jobs && row.step == jobs[j].step && jobs[j].loc == OnAgv(v)
    requires VehicleOk(c, jobs, agvs[v])
    requires a == agvs[v].(job := None, service := None, target := None)
    ensures VehiclesOk(c, jobs[j := row], agvs[v := a])
  {
    VehicleSet(c, jobs, agvs, v, a);
    var after := agvs[v := a];
    forall w | w in after ensures !Loading(after[w], j) {
      if w != v { assert VehicleOk(c, jobs, agvs[w]); }
    }
    VehiclesJobMoved(c, jobs, agvs[v := a], j, row);
  }

  lemma UnloadedControl(c: Scenario, jobs: map<JobId, JobRow>, agvs: map<AgvId, AgvRow>, tasks: map<AgvId, Assignment>,
                        v: AgvId, j: JobId, row: JobRow, a: AgvRow, p: Place)
    requires ControlOk(c, jobs, agvs, tasks) && v in agvs && j in jobs && row.loc == Stored(p) && row.step == jobs[j].step
    requires agvs[v].job == Some(j) && agvs[v].target == Some(p.owner)
    requires a == agvs[v].(job := None, service := None, target := None)
    ensures ControlOk(c, jobs[j := row], agvs[v := a], tasks)
  {
    var after := agvs[v := a];
    assert tasks != map[] ==> TargetAssigned(agvs, tasks, v);
    forall w | w in tasks ensures AssignmentOk(c, jobs[j := row], after[w], tasks[w]) {
      assert AssignmentOk(c, jobs, agvs[w], tasks[w]);
      if w != v {
        assert AssignmentOk(c, jobs, agvs[v], tasks[v]);
        assert OtherJob(tasks[v], tasks[w]);
      }
    }
    if c.central {
      forall w | w in after ensures TargetAssigned(after, tasks, w) { assert TargetAssigned(agvs, tasks, w); }
    }
  }

  lemma UnloadedStations(c: Scenario, jobs: map<JobId, JobRow>, agvs: map<AgvId, AgvRow>, tasks: map<AgvId, Assignment>,
                         v: AgvId, j: JobId, row: JobRow, a: AgvRow, p: Place)
    requires WellFormed(c) && StationsFit(c, jobs, agvs, tasks) && v in agvs && j in jobs
    requires jobs[j].loc == OnAgv(v) && row.loc == Stored(p) && p.owner in c.buffers && !IsSource(c, p.owner)
    requires agvs[v].target == Some(p.owner) && a == agvs[v].(job := None, service := None, target := None)
    ensures StationsFit(c, jobs[j := row], agvs[v := a], tasks)
  {
    forall m | m in c.machines ensures StationFits(c, jobs[j := row], agvs[v := a], tasks, m) {
      assert StationFits(c, jobs, agvs, tasks, m);
      assert GoodMachine(c, m);
      LoadAfter(c, jobs, j, row, m);
      CommitsAfter(agvs, tasks, agvs[v := a], tasks, v, c.pre[m]);
    }
  }

  lemma UnloadedSupplies(c: Scenario, jobs: map<JobId, JobRow>, agvs: map<AgvId, AgvRow>, tasks: map<AgvId, Assignment>,
                         v: AgvId, j: JobId, row: JobRow, a: AgvRow)
    requires SuppliesCover(c, jobs, agvs, tasks) && v in agvs && j in jobs && jobs[j].loc == OnAgv(v)
    requires a == agvs[v].(job := None, service := None, target := None)
    ensures SuppliesCover(c, jobs[j := row], agvs[v := a], tasks)
  {
    forall b | IsSource(c, b) ensures SourceCovered(c, jobs[j := row], agvs[v := a], tasks, b) {
      assert SourceCovered(c, jobs, agvs, tasks, b);
      SupplyAfter(c, jobs, j, row, b);
      CommitsAfter(agvs, tasks, agvs[v := a], tasks, v, b);
    }
  }

  lemma UnloadedLocks(c: Scenario, storage: map<Place, seq<JobId>>, agvs: map<AgvId, AgvRow>, v: AgvId, j: JobId, a: AgvRow, p: Place)
    requires LocksFit(c, storage, agvs) && v in agvs && p in storage && Locks(agvs[v], p) && a.service.None?
    ensures LocksFit(c, storage[p := storage[p] + [j]], agvs[v := a])
  {
    var after := storage[p := storage[p] + [j]];
    forall x | x in after ensures PlaceFits(c, after, agvs[v := a], x) {
      assert PlaceFits(c, storage, agvs, x);
      LockedAfter(agvs, v, a, x);
    }
  }

  /** An Output delivery ships exactly this demand, any other delivery ships nothing. */
  ghost predicate Shipped(c: Scenario, l: Ledger, l': Ledger, d: DemandId, p: Place) {
    if InOutput(c, Stored(p))
    then l'.released == l.released && l'.attempts == l.attempts
         && l'.shipped == l.shipped + {d} && l'.shipmentTimes.Keys == l.shipmentTimes.Keys + {d}
         && l.good <= l'.good <= l.good + {d}
    else l' == l
  }

  lemma DeliveredLedger(c: Scenario, jobs: map<JobId, JobRow>, l: Ledger, l': Ledger, j: JobId, row: JobRow, p: Place)
    requires LedgerOk(c, jobs, l) && j in jobs && !InOutput(c, jobs[j].loc)
    requires row.loc == Stored(p) && Shipped(c, l, l', j.demand, p)
    ensures LedgerOk(c, jobs[j := row], l') && j.demand !in l.shipped
  {
    var after := jobs[j := row];
    assert LedgerRow(c, jobs[j], j, l);
    forall d | d in l'.released ensures Attempted(after, l', d) {
      assert Attempted(jobs, l, d);
    }
    forall i | i in after ensures LedgerRow(c, after[i], i, l') {
      assert LedgerRow(c, jobs[i], i, l);
    }
  }

  lemma UnloadingFacts(c: Scenario, s: State, v: AgvId)
    requires WellFormed(c) && Inv(c, s) && v in s.agvs && s.agvs[v].service.Some? && s.agvs[v].service.value.kind.DropOff?
    ensures var x := s.agvs[v].service.value; UnloadingAt(c, s, v, x.job, x.place) && KnownPlace(c, x.place)
  {
    var x := s.agvs[v].service.value;
    assert VehicleOk(c, s.jobs, s.agvs[v]) && KnownPlace(c, x.place) && RowFits(c, x.job, s.jobs[x.job]);
    assert AgvNames(s.jobs, s.agvs, v);
  }

  /** What a delivery changes. */
  ghost predicate Delivered(c: Scenario, s: State, t: State, v: AgvId, j: JobId, p: Place, row: JobRow, a: AgvRow) {
    && v in s.agvs && j in s.jobs && p in s.storage
    && t.jobs == s.jobs[j := row] && row.step == s.jobs[j].step && row.loc == Stored(p)
    && t.agvs == s.agvs[v := a] && a == s.agvs[v].(job := None, service := None, target := None)
    && t.storage == s.storage[p := s.storage[p] + [j]] && t.queue == s.queue && t.machines == s.machines
    && t.assignments == s.assignments && t.idleSince == s.idleSince && Shipped(c, s.ledger, t.ledger, j.demand, p)
  }

  lemma DeliverEffect(c: Scenario, s: State, v: AgvId, j: JobId, p: Place)
    requires v in s.agvs && j in s.jobs && p in s.storage && p.owner in c.buffers
    ensures var t := Deliver(c, s, v, j, p);
            j in t.jobs && v in t.agvs && Delivered(c, s, t, v, j, p, t.jobs[j], t.agvs[v])
  {
    if c.buffers[p.owner].role.Output? { ShippedRow(s, j); }
  }

  /** Shipping touches the ledger, the log and the quality of one job. */
  lemma ShippedRow(s: State, j: JobId)
    requires j in s.jobs
    ensures var t := Ship(s, j);
            j in t.jobs && t.jobs == s.jobs[j := t.jobs[j]] && t.jobs[j].step == s.jobs[j].step
  {
  }

  lemma DeliveredKeeps(c: Scenario, s: State, t: State, v: AgvId, j: JobId, p: Place, row: JobRow, a: AgvRow)
    requires WellFormed(c) && Inv(c, s) && UnloadingAt(c, s, v, j, p) && Delivered(c, s, t, v, j, p, row, a)
    ensures Inv(c, t)
    ensures j.demand !in s.ledger.shipped
  {
    hide JobsOk, MachinesOk, VehiclesOk, StationsFit, SuppliesCover, LocksFit, ControlOk, LedgerOk, Custodial;
    JobSet(c, s.jobs, j, row);
    MachinesJobMoved(c, s.jobs, s.machines, j, row);
    UnloadedVehicles(c, s.jobs, s.agvs, v, j, row, a);
    UnloadedControl(c, s.jobs, s.agvs, s.assignments, v, j, row, a, p);
    UnloadedStations(c, s.jobs, s.agvs, s.assignments, v, j, row, a, p);
    UnloadedSupplies(c, s.jobs, s.agvs, s.assignments, v, j, row, a);
    UnloadedLocks(c, s.storage, s.agvs, v, j, a, p);
    DeliveredLedger(c, s.jobs, s.ledger, t.ledger, j, row, p);
    UnloadedHeld(s.jobs, s.queue, s.storage, s.machines, s.agvs, j, row, v, a, p);
  }

  /** Shipments are only added, all at this tick, and good ones are among them. */
  ghost predicate Ships(l: Ledger, after: Ledger, tick: int) {
    && l.shipped <= after.shipped && after.shipmentTimes.Keys == after.shipped
    && l.good <= after.good <= l.good + (after.shipped - l.shipped)
    && forall d {:trigger ShippedWhen(l, after, tick, d)} :: d in after.shipped ==> ShippedWhen(l, after, tick, d)
  }

  ghost predicate ShippedWhen(l: Ledger, after: Ledger, tick: int, d: DemandId) {
    && d in after.shipmentTimes
    && if d in l.shipped then d in l.shipmentTimes && after.shipmentTimes[d] == l.shipmentTimes[d]
       else after.shipmentTimes[d] == tick
  }

  lemma ShipsNothing(l: Ledger, after: Ledger, tick: int)
    requires after == l && l.shipmentTimes.Keys == l.shipped
    ensures Ships(l, after, tick)
  {
    forall d | d in after.shipped ensures ShippedWhen(l, after, tick, d) {}
  }

  lemma ShipsMore(l: Ledger, middle: Ledger, after: Ledger, tick: int)
    requires Ships(l, middle, tick) && Ships(middle, after, tick)
    ensures Ships(l, after, tick)
  {
    forall d | d in after.shipped ensures ShippedWhen(l, after, tick, d) {
      assert ShippedWhen(middle, after, tick, d);
      if d in middle.shipped { assert ShippedWhen(l, middle, tick, d); }
    }
  }

  lemma DeliveryShips(c: Scenario, s: State, v: AgvId, j: JobId, p: Place)
    requires v in s.agvs && j in s.jobs && p in s.storage && p.owner in c.buffers
    requires s.ledger.shipmentTimes.Keys == s.ledger.shipped && j.demand !in s.ledger.shipped
    ensures Ships(s.ledger, Deliver(c, s, v, j, p).ledger, s.tick)
  {
    var l, after := s.ledger, Deliver(c, s, v, j, p).ledger;
    if c.buffers[p.owner].role.Output? {
      forall d | d in after.shipped ensures ShippedWhen(l, after, s.tick, d) {}
    } else {
      ShipsNothing(l, after, s.tick);
    }
  }

  lemma CompleteShips(c: Scenario, s: State, v: AgvId)
    requires WellFormed(c) && Inv(c, s) && v in s.agvs
    ensures Ships(s.ledger, Complete(c, s, v).ledger, s.tick)
  {
    var t := Complete(c, s, v);
    if s.agvs[v].service.Some? && s.agvs[v].service.value.kind.DropOff? {
      var x := s.agvs[v].service.value;
      UnloadingFacts(c, s, v);
      assert LedgerRow(c, s.jobs[x.job], x.job, s.ledger);
      DeliveryShips(c, s, v, x.job, x.place);
    } else {
      ShipsNothing(s.ledger, t.ledger, s.tick);
    }
  }

  lemma CompleteKeeps(c: Scenario, s: State, v: AgvId)
    requires WellFormed(c) && Inv(c, s) && v in s.agvs
    ensures Inv(c, Complete(c, s, v))
  {
    if s.agvs[v].service.Some? {
      if s.agvs[v].service.value.kind.Pickup? {
        LoadingFacts(c, s, v);
        PickUpKeeps(c, s, v);
      } else {
        UnloadingFacts(c, s, v);
        var x := s.agvs[v].service.value;
        var t := Deliver(c, s, v, x.job, x.place);
        DeliverEffect(c, s, v, x.job, x.place);
        DeliveredKeeps(c, s, t, v, x.job, x.place, t.jobs[x.job], t.agvs[v]);
      }
    }
  }
}
