/** The simulator as an object: its fields are updated in place, and every method is proved against
    the function that specifies the same phase. */
module Engine {
  import opened Collections
  import opened Availability
  import opened Factory
  import opened Custody
  import opened Safety
  import opened Operations
  import opened Preservation
  import opened Settling
  import opened Handling
  import opened Deliveries
  import opened Physics
  import opened Stepping
  import opened Runs
  import opened Rewards
  import opened TimeJump
  import opened StaleClocks
  import Movement
  import Driving
  import Durations
  import ServiceTick
  import Phases
  import Workday
  import Checks
  import Conservation

  /** The fields of `ProductionSimulator`, of its protocol (`idleSince`) and of the centralized
      controller (`assignments`). */
  class Simulator {
    const c: Scenario
    var tick: int
    var jobs: Rows
    var queue: seq<JobId>
    var storage: Lists
    var machines: Machines
    var agvs: Agvs
    /** `released`, `attempts`, `shipped`, `shipment_times` and `_qualified_shipments`. */
    var ledger: Ledger
    var idleSince: map<AgvId, int>
    var assignments: map<AgvId, Assignment>
    var log: seq<Event>
    var overdueTime: int
    var totalReward: real
    /** When each vehicle last asked for work, and which owners it could ask then. */
    var wake: map<AgvId, (int, seq<(BufferId, int)>)>
    var emptyWaitDue: map<AgvId, int>
    var reevaluateTicks: int

    /** The simulator after its first boundary phase, with its protocol attached. */
    constructor (scenario: Scenario)
      requires WellFormed(scenario)
      ensures c == scenario && View() == Constructed(scenario) && Conservation.Check(scenario, View())
      ensures overdueTime == 0 && totalReward == 0.0 && wake == map[] && emptyWaitDue == map[] && reevaluateTicks == 10
    {
      hide *;
      c := scenario;
      tick, jobs, queue := 0, map[], [];
      storage, machines, agvs := EmptySlots(scenario), IdleMachines(scenario), ParkedVehicles(scenario);
      ledger := Ledger({}, map[], {}, map[], {});
      idleSince, assignments, log := map[], map[], [];
      overdueTime, totalReward := 0, 0.0;
      wake, emptyWaitDue, reevaluateTicks := map[], map[], 10;
      new;
      FreshFields(c);
      Shown(Fresh(c));
      FirstBoundary();
    }

    method FirstBoundary()
      requires WellFormed(c) && View() == Fresh(c)
      modifies `machines, `storage, `jobs, `agvs, `queue, `ledger, `log
      ensures View() == Constructed(c) && Conservation.Check(c, View())
    {
      FreshIsSafe(c);
      hide Inv, WellFormed, Fresh, View, Conservation.Check;
      Boundary(true);
      Conservation.CheckNeverFails(c, View());
    }

    /** `configure`: the idle clocks start. */
    method Configure(ticks: int)
      requires WellFormed(c) && Inv(c, View())
      modifies `idleSince, `reevaluateTicks
      ensures View() == SyncIdle(c, old(View())) && reevaluateTicks == ticks
    {
      Listed(c, View());
      hide Inv, WellFormed, RunningClocks;
      SyncIdleClocks();
      reevaluateTicks := ticks;
    }

    function View(): State
      reads this
    {
      State(tick, jobs, queue, storage, machines, agvs, ledger, idleSince, assignments, log)
    }

    // -- single changes ------------------------------------------------------------------------

    method SetDown(m: MachineId, down: bool)
      requires m in machines
      modifies `machines, `log
      ensures View() == Operations.SetDown(old(View()), m, down)
    {
      if machines[m].down != down {
        machines := machines[m := machines[m].(down := down)];
        log := log + [if down then Breakdown(tick, m) else Repair(tick, m)];
      }
    }

    /** `_enqueue` and the release of the demand. */
    method ReleaseDemand(d: DemandId)
      requires d in c.demands
      modifies `ledger, `jobs, `queue, `log
      ensures View() == Operations.ReleaseDemand(c, old(View()), d)
    {
      if c.demands[d].releaseAt <= tick && d !in ledger.released {
        var n := (if d in ledger.attempts then ledger.attempts[d] else 0) + 1;
        ledger := ledger.(released := ledger.released + {d}, attempts := ledger.attempts[d := n]);
        var j := Job(d, n);
        jobs := jobs[j := JobRow(0, Queued, tick, Unknown, false, false)];
        queue := queue + [j];
        log := log + [AttemptQueued(tick, j), DemandReleased(tick, d)];
      }
    }

    /** `_free` */
    method FreeSlot(owner: BufferId) returns (r: Option<SlotId>)
      requires WellFormed(c) && Shaped(c, View()) && owner in c.buffers
      ensures r == Free(c, View(), owner)
      ensures r.Some? ==> exists x: nat :: Workday.FirstOpen(c, storage, owner, x) && r == Some(c.buffers[owner].sorted[x])
      ensures r.None? ==> forall x: nat :: !Workday.FirstOpen(c, storage, owner, x)
    {
      FreeSlotMeans(owner);
      assert GoodBuffer(c, owner);
      var slots := c.buffers[owner].sorted;
      ghost var s := View();
      forall k | k in slots ensures k in c.buffers[owner].capacity && Place(owner, k) in s.storage { assert KnownPlace(c, Place(owner, k)); }
      assert slots[0..] == slots;
      for i := 0 to |slots|
        invariant FirstRoom(c, storage, owner, slots[i..]) == FirstRoom(c, storage, owner, slots)
      {
        assert slots[i..][0] == slots[i] && slots[i..][1..] == slots[i + 1..];
        var cap := c.buffers[owner].capacity[slots[i]];
        if cap.None? || |storage[Place(owner, slots[i])]| < cap.value {
          return Some(slots[i]);
        }
      }
      return None;
    }

    lemma FreeSlotMeans(owner: BufferId)
      requires WellFormed(c) && Shaped(c, View()) && owner in c.buffers
      ensures Free(c, View(), owner).Some? ==>
                exists x: nat :: Workday.FirstOpen(c, storage, owner, x) && Free(c, View(), owner) == Some(c.buffers[owner].sorted[x])
      ensures Free(c, View(), owner).None? ==> forall x: nat :: !Workday.FirstOpen(c, storage, owner, x)
    {
      hide *;
      Fields();
      if Free(c, View(), owner).Some? {
        var x := Workday.FreeIsOpening(c, View(), owner);
      } else {
        Workday.NoOpening(c, View(), owner);
      }
    }

    /** `_place` */
    method Put(j: JobId, p: Place)
      requires j in jobs && p in storage
      modifies `storage, `jobs
      ensures storage == old(storage)[p := old(storage)[p] + [j]]
      ensures jobs == old(jobs)[j := old(jobs)[j].(loc := Stored(p), since := tick)]
    {
      storage := storage[p := storage[p] + [j]];
      jobs := jobs[j := jobs[j].(loc := Stored(p), since := tick)];
    }

    /** `_remove`: the holder named by the job's row lets go of it. */
    method Remove(j: JobId)
      requires j in jobs
      requires jobs[j].loc.Stored? ==> jobs[j].loc.place in storage
      requires jobs[j].loc.AtMachine? ==> jobs[j].loc.machine in machines
      requires jobs[j].loc.OnAgv? ==> jobs[j].loc.agv in agvs
      modifies `storage, `machines, `agvs
      ensures storage == if jobs[j].loc.Stored? then old(storage)[jobs[j].loc.place := Without(old(storage)[jobs[j].loc.place], j)] else old(storage)
      ensures machines == if jobs[j].loc.AtMachine?
                          then old(machines)[jobs[j].loc.machine := old(machines)[jobs[j].loc.machine].(job := None, status := Idle, remaining := 0, mode := None)]
                          else old(machines)
      ensures agvs == if jobs[j].loc.OnAgv? then old(agvs)[jobs[j].loc.agv := old(agvs)[jobs[j].loc.agv].(job := None)] else old(agvs)
    {
      match jobs[j].loc
      case Queued =>
      case Stored(p) =>
        storage := storage[p := Without(storage[p], j)];
      case AtMachine(m) =>
        machines := machines[m := machines[m].(job := None, status := Idle, remaining := 0, mode := None)];
      case OnAgv(v) =>
        agvs := agvs[v := agvs[v].(job := None)];
    }

    /** One machine's part of the unblocking loop. */
    method Unblock(m: MachineId)
      requires WellFormed(c) && Inv(c, View()) && m in c.machines
      modifies `machines, `storage, `jobs, `agvs, `log
      ensures View() == Operations.Unblock(c, old(View()), m)
    {
      UnblockCases(c, View(), m);
      hide Inv, WellFormed, Operations.Unblock, Shaped, Free;
      if machines[m].status.Blocked? {
        var j := machines[m].job.value;
        if Capable(c, j, jobs[j].step, m) {
          machines := machines[m := machines[m].(status := Ready)];
          log := log + [Retained(tick, m, j)];
        } else {
          var owner := c.post[m];
          var slot := FreeSlot(owner);
          if slot.Some? {
            LeaveMachine(m, j, Place(owner, slot.value));
          }
        }
      }
    }

    method LeaveMachine(m: MachineId, j: JobId, p: Place)
      requires j in jobs && jobs[j].loc == AtMachine(m) && m in machines && p in storage
      modifies `machines, `storage, `jobs, `agvs, `log
      ensures View() == ReleaseJob(old(View()), m, j, p)
    {
      Remove(j);
      Put(j, p);
      log := log + [MachineReleased(tick, j, m, p)];
    }

    // -- the boundary phase --------------------------------------------------------------------

    method SetFlags(scan: bool)
      requires WellFormed(c) && Inv(c, View())
      modifies `machines, `log
      ensures View() == Flags(c, old(View()), |c.machineIds|, scan)
      ensures !scan ==> Workday.Flown(c, old(View()), View())
    {
      hide *;
      ghost var s := View();
      FlagsFirst(c, s, scan);
      for i := 0 to |c.machineIds|
        invariant View() == Flags(c, s, i, scan)
      {
        var m := c.machineIds[i];
        FlagsNext(c, s, i, scan);
        Fields();
        var down := if scan then Covered(c.outages, m, tick) else DownAt(c.outages, m, tick);
        SetDown(m, down);
      }
      Workday.FlagsFlown(c, s);
    }

    method ReleaseDue()
      requires WellFormed(c) && Inv(c, View())
      modifies `ledger, `jobs, `queue, `log
      ensures View() == Releases(c, old(View()), |c.demandIds|)
      ensures Workday.LetGo(c, old(View()), View(), c.demandIds)
    {
      hide Inv, WellFormed, View, ReleasedTo, Workday.LetGo;
      ghost var s := View();
      Listed(c, s);
      for i := 0 to |c.demandIds|
        invariant View() == Releases(c, s, i)
      {
        assert c.demandIds[i] in SetOf(c.demandIds);
        ReleaseDemand(c.demandIds[i]);
      }
      Workday.ReleasesGo(c, s);
    }

    method UnblockAll()
      requires WellFormed(c) && Inv(c, View())
      modifies `machines, `storage, `jobs, `agvs, `log
      ensures View() == Unblocks(c, old(View()), |c.machineIds|)
      ensures Workday.LetOut(c, old(View()), View())
    {
      hide Inv, WellFormed, View, Cleared, Settled, Workday.LetOut;
      ghost var s := View();
      Listed(c, s);
      for i := 0 to |c.machineIds|
        invariant View() == Unblocks(c, s, i)
      {
        assert c.machineIds[i] in SetOf(c.machineIds);
        Unblock(c.machineIds[i]);
      }
      Workday.UnblocksLetOut(c, s);
    }

    /** FIFO admission: an Input that refused a job takes none queued after it. */
    method AdmitQueued()
      requires WellFormed(c) && Inv(c, View())
      modifies `storage, `jobs, `queue, `log
      ensures View() == AdmitAll(c, old(View()))
      ensures Workday.LetIn(c, old(View()), View())
    {
      hide Inv, WellFormed, Admitting, Free, Workday.LetIn;
      ghost var s := View();
      ghost var u := s;
      var remaining: seq<JobId>, blockedInputs: set<BufferId> := [], {};
      AdmitStarts(c, s);
      assert queue[0..] == queue;
      for i := 0 to |queue|
        invariant queue == s.queue && View() == u.(queue := queue)
        invariant Admitting(c, s, u, remaining, queue[i..], blockedInputs)
      {
        var job := queue[i];
        assert queue[i..][0] == job && queue[i..][1..] == queue[i + 1..];
        AdmitNext(c, s, u, remaining, queue[i..], blockedInputs);
        var owner := c.demands[job.demand].input;
        SameFree(c, u, View(), owner);
        var slot := FreeSlot(owner);
        if slot.None? || owner in blockedInputs {
          AdmitSkips(c, s, u, remaining, queue[i..], blockedInputs);
          blockedInputs := blockedInputs + {owner};
          remaining := remaining + [job];
        } else {
          var p := Place(owner, slot.value);
          AdmitTakes(c, s, u, remaining, queue[i..], blockedInputs);
          Put(job, p);
          log := log + [InputAdmitted(tick, job, p)];
          u := AdmitJob(u, job, p, remaining + queue[i + 1..]);
        }
      }
      AdmitEnds(c, s, u, remaining, blockedInputs);
      Workday.AllLetIn(c, s);
      queue := remaining;
    }

    method Boundary(scan: bool)
      requires WellFormed(c) && Inv(c, View())
      modifies `machines, `storage, `jobs, `agvs, `queue, `ledger, `log
      ensures View() == Physics.Boundary(c, old(View()), scan)
      ensures !scan ==> Workday.Dawned(c, old(View()), View())
    {
      hide Inv, WellFormed, View, Workday.LetGo, Workday.LetIn, Workday.LetOut;
      SetFlags(scan);
      ReleaseDue();
      AdmitQueued();
      UnblockAll();
    }

    // -- processing ----------------------------------------------------------------------------

    /** `_start`: the job leaves its slot for the machine, which then runs it in the mode for as long as its
        work takes there. */
    method Start(m: MachineId, j: JobId, mode: ModeId)
      requires WellFormed(c) && Inv(c, View()) && Startable(c, View(), m, j, mode)
      modifies `machines, `storage, `jobs, `agvs, `log
      ensures View() == Operations.Start(c, old(View()), m, j, mode)
      ensures Durations.Begun(c, old(View()), View(), m, j, mode)
    {
      hide *;
      ghost var s := View();
      StartParts(c, s, m, j, mode);
      StartBegins(c, s, m, j, mode);
      Fields();
      var (actual, nominal) := Duration(c, j, jobs[j].step, m, mode);
      Remove(j);
      Occupy(m, j, mode, actual, nominal);
      StartFields(c, s, m, j, mode, storage, jobs, machines, log);
      Shown(Operations.Start(c, s, m, j, mode));
    }

    method Occupy(m: MachineId, j: JobId, mode: ModeId, actual: int, nominal: int)
      requires m in machines && j in jobs
      modifies `machines, `jobs, `log
      ensures jobs == old(jobs)[j := old(jobs)[j].(loc := AtMachine(m), since := tick)]
      ensures machines == old(machines)[m := old(machines)[m].(job := Some(j), status := Processing, remaining := actual,
                                                               elapsed := 0, nominal := nominal, mode := Some(mode))]
      ensures log == old(log) + [ProcessingStarted(tick, m, j, mode, nominal, actual)]
    {
      jobs := jobs[j := jobs[j].(loc := AtMachine(m), since := tick)];
      machines := machines[m := machines[m].(job := Some(j), status := Processing, remaining := actual, elapsed := 0,
                                             nominal := nominal, mode := Some(mode))];
      log := log + [ProcessingStarted(tick, m, j, mode, nominal, actual)];
    }

    /** One machine's part of the processing loop. */
    method Work(m: MachineId, k: int)
      requires WellFormed(c) && Inv(c, View()) && m in c.machines
      modifies `machines, `jobs, `log
      ensures View() == Operations.Work(c, old(View()), m, k)
    {
      hide *;
      ghost var s := View();
      WorkFields(c, s, m, k);
      Fields();
      var row := machines[m];
      if row.status.Processing? && !row.down {
        machines := machines[m := row.(remaining := row.remaining - k, elapsed := row.elapsed + k)];
        if machines[m].remaining == 0 {
          var j := row.job.value;
          FinishOperation(m, j, c.qualityDraw(j, jobs[j].step) < c.machines[m].modes[row.mode.value].errorRate);
        }
      }
      Shown(Operations.Work(c, s, m, k));
    }

    method FinishOperation(m: MachineId, j: JobId, defect: bool)
      requires m in machines && j in jobs
      modifies `machines, `jobs, `log
      ensures jobs == old(jobs)[j := old(jobs)[j].(defective := old(jobs)[j].defective || defect, quality := Unknown,
                                                   step := old(jobs)[j].step + 1)]
      ensures machines == old(machines)[m := old(machines)[m].(status := Blocked)]
      ensures log == old(log) + [ProcessingCompleted(tick, j, m, old(jobs)[j].step, old(machines)[m].elapsed)]
    {
      log := log + [ProcessingCompleted(tick, j, m, jobs[j].step, machines[m].elapsed)];
      jobs := jobs[j := jobs[j].(defective := jobs[j].defective || defect, quality := Unknown, step := jobs[j].step + 1)];
      machines := machines[m := machines[m].(status := Blocked)];
    }

    method ProcessAll(k: int)
      requires WellFormed(c) && Inv(c, View()) && Reachable(View(), k)
      modifies `machines, `jobs, `log
      ensures View() == Works(c, old(View()), |c.machineIds|, k)
      ensures Workday.Worked(c, old(View()), View(), k)
    {
      hide *;
      ghost var s := View();
      WorksFirst(c, s, k);
      for i := 0 to |c.machineIds|
        invariant View() == Works(c, s, i, k)
      {
        WorksNext(c, s, i, k);
        Work(c.machineIds[i], k);
      }
      Workday.WorksWorked(c, s, k);
    }

    // -- reservations and services -------------------------------------------------------------

    /** `cancel` */
    method Cancel(v: AgvId)
      requires v in agvs && NoDup(c.agvIds) && SetOf(c.agvIds) == agvs.Keys && idleSince.Keys <= agvs.Keys
      modifies `agvs, `assignments, `idleSince, `log
      ensures View() == Operations.Cancel(c, old(View()), v)
      ensures assignments == old(assignments) - {v}
      ensures agvs == if old(agvs)[v].target.None? then old(agvs) else old(agvs)[v := old(agvs)[v].(target := None, service := None)]
    {
      assignments := assignments - {v};
      var a := agvs[v];
      if a.target.None? { return; }
      log := log + [ReservationCancelled(tick, v, a.target.value)]
        + (if a.service.Some? then [ServiceInterrupted(tick, v, a.service.value)] else []);
      agvs := agvs[v := a.(target := None, service := None)];
      SyncIdleClocks();
    }

    /** `accept`: refuses a vehicle that already has a target and an owner without quota. */
    method Accept(v: AgvId, b: BufferId) returns (ok: bool)
      requires WellFormed(c) && Inv(c, View()) && v in agvs && b in c.buffers
      modifies `agvs, `idleSince, `log
      ensures ok <==> old(agvs[v].target.None? && Checks.Quota(c, View(), b) > 0)
      ensures View() == if ok then Operations.Accept(c, old(View()), v, b) else old(View())
      ensures ok ==> agvs == old(agvs)[v := old(agvs)[v].(target := Some(b), arrivedAt := tick)]
    {
      hide Inv, WellFormed, Checks.Quota;
      Listed(c, View());
      if agvs[v].target.Some? || Checks.Quota(c, View(), b) <= 0 { return false; }
      agvs := agvs[v := agvs[v].(target := Some(b), arrivedAt := tick)];
      log := log + [ReservationAccepted(tick, v, b)];
      SyncIdleClocks();
      return true;
    }

    /** `start_service` */
    method StartService(v: AgvId, kind: Kind, j: JobId, p: Place)
      requires v in agvs
      modifies `agvs, `log
      ensures View() == Serve(old(View()), v, kind, j, p)
    {
      agvs := agvs[v := agvs[v].(service := Some(Service(kind, j, p, tick, 1)))];
      log := log + [ServiceStarted(tick, kind, v, j, p)];
    }

    /** `_transfer` of a pickup and the end of its service. */
    method FinishPickup(v: AgvId, j: JobId, p: Place)
      requires v in agvs && j in jobs && jobs[j].loc == Stored(p) && p in storage
      modifies `storage, `machines, `jobs, `agvs, `log
      ensures View() == PickUp(old(View()), v, j, p)
      ensures storage == old(storage)[p := Without(old(storage)[p], j)] && jobs == old(jobs)[j := old(jobs)[j].(loc := OnAgv(v), since := tick)]
      ensures agvs == old(agvs)[v := old(agvs)[v].(job := Some(j), service := None, target := None)]
    {
      Remove(j);
      jobs := jobs[j := jobs[j].(loc := OnAgv(v), since := tick)];
      agvs := agvs[v := agvs[v].(job := Some(j), service := None, target := None)];
      log := log + [Transferred(tick, Pickup, v, j, p), ServiceCompleted(tick, Pickup, v, j)];
    }

    /** The part of `_transfer` that ships a demand, with `_reveal`. */
    method ShipDemand(j: JobId)
      requires j in jobs
      modifies `ledger, `jobs, `log
      ensures View() == Ship(old(View()), j)
    {
      var row := jobs[j];
      var quality := if row.defective then Failed else Passed;
      var first := row.defective && !row.confirmed;
      ledger := ledger.(shipped := ledger.shipped + {j.demand}, shipmentTimes := ledger.shipmentTimes[j.demand := tick],
                        good := if row.defective then ledger.good else ledger.good + {j.demand});
      jobs := jobs[j := row.(quality := quality, confirmed := row.confirmed || first)];
      log := log + [QualityRevealed(tick, j, quality, first)];
    }

    method FinishUnloading(v: AgvId, j: JobId, p: Place)
      requires v in agvs && j in jobs && jobs[j].loc == OnAgv(v) && p in storage
      modifies `storage, `machines, `jobs, `agvs, `log
      ensures View() == Unload(old(View()), v, j, p)
    {
      Remove(j);
      Put(j, p);
      agvs := agvs[v := agvs[v].(service := None, target := None)];
      log := log + [Transferred(tick, DropOff, v, j, p), ServiceCompleted(tick, DropOff, v, j)];
    }

    /** `_transfer` of a delivery: refuses to ship a demand twice. */
    method FinishDelivery(v: AgvId, j: JobId, p: Place) returns (ok: bool)
      requires v in agvs && j in jobs && jobs[j].loc == OnAgv(v) && p in storage && p.owner in c.buffers
      modifies `storage, `machines, `jobs, `agvs, `ledger, `log
      ensures ok <==> !(c.buffers[p.owner].role.Output? && j.demand in old(ledger).shipped)
      ensures View() == if ok then Deliver(c, old(View()), v, j, p) else old(View())
      ensures ok ==> ServiceTick.Unloaded(c, old(View()), View(), v, j, p)
    {
      hide Unload, Ship, ServiceTick.Unloaded;
      ServiceTick.DeliverRows(c, View(), v, j, p);
      if c.buffers[p.owner].role.Output? {
        if j.demand in ledger.shipped { return false; }
        ShipFields(View(), j);
        ShipDemand(j);
      }
      FinishUnloading(v, j, p);
      return true;
    }

    /** One tick of one vehicle's service; the refusal to ship twice never happens. */
    method CompleteService(v: AgvId)
      requires WellFormed(c) && Inv(c, View()) && v in agvs
      modifies `storage, `machines, `jobs, `agvs, `ledger, `log
      ensures View() == Operations.Complete(c, old(View()), v)
    {
      ServiceParts(c, View(), v);
      hide Inv, WellFormed, Deliver, PickUp;
      if agvs[v].service.Some? {
        var x := agvs[v].service.value;
        if x.kind.Pickup? {
          FinishPickup(v, x.job, x.place);
        } else {
          var ok := FinishDelivery(v, x.job, x.place);
          assert ok;
        }
      }
    }

    /** `before_services`: the centralized controller gives up tasks whose station just broke down. */
    method BeforeServices()
      requires WellFormed(c) && Inv(c, View())
      modifies `agvs, `assignments, `idleSince, `log
      ensures View() == WithdrawTasks(c, old(View()))
    {
      hide *;
      ghost var s := View();
      if !c.central { BaseIdles(c, s); return; }
      var turns := Turns(c, log);
      Fields();
      TurnsKnown(c, s, turns);
      WithdrawFirst(c, turns, s);
      for i := 0 to |turns|
        invariant View() == Withdraw(c, turns, s, i)
      {
        var v := turns[i];
        WithdrawNext(c, turns, s, i);
        Listed(c, View());
        Fields();
        if v in assignments && DownOwner(c, tick, assignments[v].destination) { Cancel(v); }
      }
    }

    /** Unloading into a station that just broke down is interrupted. */
    method InterruptUnloading()
      requires WellFormed(c) && Inv(c, View())
      modifies `agvs, `assignments, `idleSince, `log
      ensures View() == Interrupt(c, old(View()), |c.agvIds|)
    {
      hide Inv, WellFormed, View, SameShop, NoServices, DownOwner, Operations.Cancel;
      ghost var s := View();
      for i := 0 to |c.agvIds|
        invariant View() == Interrupt(c, s, i)
      {
        var v := c.agvIds[i];
        Listed(c, View());
        assert v in SetOf(c.agvIds);
        Fields();
        var x := agvs[v].service;
        if x.Some? && x.value.kind.DropOff? && DownOwner(c, tick, x.value.place.owner) { Cancel(v); }
      }
    }

    method FinishServices()
      requires WellFormed(c) && Inv(c, View())
      modifies `storage, `machines, `jobs, `agvs, `ledger, `log
      ensures View() == Completes(c, old(View()), |c.agvIds|)
    {
      hide Inv, WellFormed, View, SameShop, NoServices, Ships, Operations.Complete;
      ghost var s := View();
      for i := 0 to |c.agvIds|
        invariant View() == Completes(c, s, i)
      {
        Listed(c, View());
        assert c.agvIds[i] in SetOf(c.agvIds);
        Fields();
        CompleteService(c.agvIds[i]);
      }
    }

    method ReconcileOne(v: AgvId)
      requires WellFormed(c) && Inv(c, View()) && v in agvs
      modifies `agvs, `assignments, `idleSince, `log
      ensures View() == Operations.Reconcile(c, old(View()), v)
    {
      ghost var s := View();
      ReconcileCases(c, s, v);
      Listed(c, s);
      hide Inv, WellFormed, Operations.Reconcile, Operations.Cancel, Eligible, Shaped;
      if v in assignments {
        var x, a := assignments[v], agvs[v];
        if !Eligible(c, View(), x.destination) {
          Cancel(v);
        } else if a.job == Some(x.job) && a.target.None? {
          agvs := agvs[v := a.(target := Some(x.destination), arrivedAt := tick)];
        } else if a.job.None? && jobs[x.job].loc.Stored? && jobs[x.job].loc.place.owner == x.destination {
          assignments := assignments - {v};
        }
      }
    }

    /** `reconcile` */
    method ReconcileTasks()
      requires WellFormed(c) && Inv(c, View())
      modifies `agvs, `assignments, `idleSince, `log
      ensures View() == Physics.ReconcileTasks(c, old(View()))
    {
      hide *;
      ghost var s := View();
      if !c.central { BaseIdles(c, s); return; }
      var turns := Turns(c, log);
      Fields();
      TurnsKnown(c, s, turns);
      NothingReconciled(c, turns, s);
      for i := 0 to |turns|
        invariant View() == Reconciles(c, turns, s, i)
      {
        ReconcilesNext(c, turns, s, i);
        Fields();
        ReconcileOne(turns[i]);
      }
    }

    /** `complete_services`: tasks at stations that are down are withdrawn, unloading there is interrupted, and
        every other service ends with its job on the vehicle, in its place, or shipped. */
    method CompleteServices()
      requires WellFormed(c) && Inv(c, View())
      modifies `storage, `machines, `jobs, `agvs, `assignments, `idleSince, `ledger, `log
      ensures View() == Physics.CompleteServices(c, old(View())) && ServiceTick.TickOfServices(c, old(View()), View())
    {
      ServiceTick.ServicesTick(c, View());
      hide Inv, WellFormed, View, WithdrawTasks, Interrupt, Completes, Physics.ReconcileTasks, ServiceTick.TickOfServices;
      BeforeServices();
      InterruptUnloading();
      FinishServices();
      ReconcileTasks();
      Listed(c, View());
      Fields();
      SyncIdleClocks();
    }

    /** `_advance` */
    method Advance(k: int)
      requires WellFormed(c) && Inv(c, View()) && Reachable(View(), k)
      modifies `storage, `machines, `jobs, `agvs, `assignments, `idleSince, `ledger, `log
      ensures View() == Stepping.Advance(c, old(View()), k)
    {
      hide Inv, WellFormed, View;
      ghost var s := View();
      CompleteServices();
      assert Reachable(View(), k) by {
        ghost var u := View();
        forall m | m in u.machines ensures WithinWork(u.machines, m, k) { assert WithinWork(s.machines, m, k); }
      }
      ProcessAll(k);
    }

    // -- movement ------------------------------------------------------------------------------

    /** The moves that are asked for and permitted, and the vehicles whose action is not permitted. */
    method RequestedMoves(acts: Actions) returns (moves: Movement.Cells, invalid: set<AgvId>)
      requires SetOf(c.agvIds) == agvs.Keys
      ensures moves == MovesOf(c, agvs, acts) && invalid == Forbidden(c, agvs, acts)
    {
      hide Permitted, Shift, ActionOf;
      moves, invalid := map[], {};
      for i := 0 to |c.agvIds|
        invariant moves == map v | v in MovesOf(c, agvs, acts) && v in c.agvIds[..i] :: MovesOf(c, agvs, acts)[v]
        invariant invalid == set v | v in Forbidden(c, agvs, acts) && v in c.agvIds[..i]
      {
        var v := c.agvIds[i];
        assert v in SetOf(c.agvIds) && c.agvIds[..i + 1] == c.agvIds[..i] + [v];
        var act := ActionOf(acts, v);
        if !Permitted(c, agvs[v], act) {
          invalid := invalid + {v};
        } else if !act.Wait? {
          moves := moves[v := Shift(agvs[v].cell, act)];
        }
      }
      assert forall v :: v in agvs ==> v in SetOf(c.agvIds);
      assert c.agvIds[..|c.agvIds|] == c.agvIds;
    }

    method ResolveMoves(acts: Actions) returns (moves: Movement.Cells, invalid: set<AgvId>, refused: set<AgvId>)
      requires SetOf(c.agvIds) == agvs.Keys
      ensures moves == MovesOf(c, agvs, acts) && invalid == Forbidden(c, agvs, acts)
      ensures refused == Movement.Refused(CellsOf(agvs), moves)
    {
      moves, invalid := RequestedMoves(acts);
      assert forall v :: v in agvs ==> v in SetOf(c.agvIds);
      refused := Movement.Resolve(CellsOf(agvs), moves, c.agvIds);
    }

    /** Commits the moves that were not refused. */
    method CommitMoves(acts: Actions, moves: Movement.Cells, refused: set<AgvId>)
      requires NoDup(c.agvIds) && SetOf(c.agvIds) == agvs.Keys
      requires moves == MovesOf(c, agvs, acts) && refused == Movement.Refused(CellsOf(agvs), moves)
      modifies `agvs, `log
      ensures View() == CommittedMoves(c, old(View()), acts, moves, refused)
    {
      ghost var s := View();
      Fields();
      hide MovesOf, CellsOf, Movement.Refused, Relocated, MoveEvents, NoDup, View;
      CommitStart(c, s, acts, moves, refused);
      assert c.agvIds[..0] == [];
      for i := 0 to |c.agvIds|
        invariant agvs == Relocated(s.agvs, moves, refused, c.agvIds[..i])
        invariant log == s.log + MoveEvents(c, s, acts, c.agvIds[..i])
      {
        var v := c.agvIds[i];
        assert v in SetOf(c.agvIds);
        CommitStep(c, s, acts, moves, refused, i);
        if v in moves && v !in refused {
          log := log + [Moved(tick, v, agvs[v].cell, moves[v])];
          agvs := agvs[v := agvs[v].(cell := moves[v])];
        }
      }
      assert c.agvIds[..|c.agvIds|] == c.agvIds;
      Shown(CommittedMoves(c, s, acts, moves, refused));
    }

    method LogRejections(ghost s: State, acts: Actions, invalid: set<AgvId>, refused: set<AgvId>)
      requires s.tick == tick && SetOf(c.agvIds) == s.agvs.Keys && invalid == Forbidden(c, s.agvs, acts)
      requires refused == Movement.Refused(CellsOf(s.agvs), MovesOf(c, s.agvs, acts))
      modifies `log
      ensures View() == old(View()).(log := old(log) + RejectEvents(c, s, acts, c.agvIds))
    {
      hide MovesOf, CellsOf, Movement.Refused;
      assert c.agvIds[..0] == [];
      for i := 0 to |c.agvIds|
        invariant log == old(log) + RejectEvents(c, s, acts, c.agvIds[..i])
      {
        var v := c.agvIds[i];
        assert v in SetOf(c.agvIds);
        RejectEventsJoin(c, s, acts, c.agvIds[..i], v);
        OneRejectEvent(c, s, acts, invalid, refused, v);
        assert c.agvIds[..i + 1] == c.agvIds[..i] + [v];
        if v in refused {
          log := log + [Rejected(tick, v, true)];
        } else if v in invalid {
          log := log + [Rejected(tick, v, false)];
        }
      }
      assert c.agvIds[..|c.agvIds|] == c.agvIds;
    }

    /** Resolves and commits all moves at once: who was sent to a walkable cell goes there unless a rival or
        a vehicle that stays is in the way, and nothing but cells changes. */
    method MoveVehicles(acts: Actions)
      requires WellFormed(c) && Inv(c, View())
      modifies `agvs, `log
      ensures View() == Move(c, old(View()), acts)
      ensures Driving.Driven(c, old(agvs), acts, agvs) && forall v :: v in agvs ==> agvs[v] == old(agvs)[v].(cell := agvs[v].cell)
      ensures old(log) <= log && Driving.Reported(c, old(agvs), acts, agvs, tick, log[|old(log)|..])
    {
      ghost var s := View();
      Driving.MoveIsDriven(c, s, acts);
      MovesReported(c, s, acts);
      Listed(c, s);
      Fields();
      hide Inv, WellFormed, MoveEvents, RejectEvents, NoDup, View, Move, CellsOf, MovesOf, CommittedMoves, Driving.Driven, Driving.Reported;
      var moves, invalid, refused := ResolveMoves(acts);
      CommitMoves(acts, moves, refused);
      Fields();
      LogRejections(s, acts, invalid, refused);
      MoveParts(c, s, acts, moves, refused);
    }

    // -- the event calendar --------------------------------------------------------------------

    /** A time at which an idle interval must end. */
    ghost predicate EventAt(t: int)
      reads this
    {
      || t == c.tickLimit || t == tick + reevaluateTicks
      || (exists v :: v in emptyWaitDue && v in c.agvIds && emptyWaitDue[v] == t && t > tick)
      || (exists d :: d in c.demandIds && d in c.demands && c.demands[d].releaseAt == t && t > tick)
      || (exists o :: o in c.outages && (o.start == t || o.end == t) && t > tick)
      || (exists m :: m in c.machineIds && m in machines && machines[m].status.Processing? && !machines[m].down
                      && tick + machines[m].remaining == t)
      || (exists v :: v in wake && v in c.agvIds && wake[v].0 + reevaluateTicks == t && t > tick)
    }

    /** Calendar entries of demands and outages. */
    method NextDeclared() returns (next: int)
      requires forall d :: d in c.demandIds ==> d in c.demands
      ensures EventAt(next) && next <= c.tickLimit && BeforeDeclared(next)
    {
      next := c.tickLimit;
      for i := 0 to |c.demandIds|
        invariant EventAt(next) && next <= c.tickLimit
        invariant forall k :: 0 <= k < i && c.demands[c.demandIds[k]].releaseAt > tick ==> next <= c.demands[c.demandIds[k]].releaseAt
      {
        var due := c.demands[c.demandIds[i]].releaseAt;
        if tick < due < next { next := due; }
      }
      for i := 0 to |c.outages|
        invariant EventAt(next) && next <= c.tickLimit
        invariant forall d :: d in c.demandIds && c.demands[d].releaseAt > tick ==> next <= c.demands[d].releaseAt
        invariant forall k :: 0 <= k < i ==> (c.outages[k].start > tick ==> next <= c.outages[k].start)
                                             && (c.outages[k].end > tick ==> next <= c.outages[k].end)
      {
        var o := c.outages[i];
        if tick < o.start < next { next := o.start; }
        if tick < o.end < next { next := o.end; }
      }
    }

    /** Calendar entries of running machines. */
    method NextCompletion() returns (next: int)
      requires forall m :: m in c.machineIds ==> m in machines
      ensures EventAt(next) && next <= tick + reevaluateTicks && BeforeCompletions(next)
    {
      next := tick + reevaluateTicks;
      for i := 0 to |c.machineIds|
        invariant EventAt(next) && next <= tick + reevaluateTicks
        invariant forall k :: 0 <= k < i && machines[c.machineIds[k]].status.Processing? && !machines[c.machineIds[k]].down ==>
                    next <= tick + machines[c.machineIds[k]].remaining
      {
        var row := machines[c.machineIds[i]];
        if row.status.Processing? && !row.down && tick + row.remaining < next { next := tick + row.remaining; }
      }
    }

    /** Calendar entries of vehicles that wait before they ask again. */
    method NextWake() returns (next: int)
      ensures EventAt(next) && next <= tick + reevaluateTicks && BeforeWakes(next)
    {
      next := tick + reevaluateTicks;
      for i := 0 to |c.agvIds|
        invariant EventAt(next) && next <= tick + reevaluateTicks
        invariant forall k :: 0 <= k < i && c.agvIds[k] in emptyWaitDue && emptyWaitDue[c.agvIds[k]] > tick ==> next <= emptyWaitDue[c.agvIds[k]]
        invariant forall k :: 0 <= k < i && c.agvIds[k] in wake && wake[c.agvIds[k]].0 + reevaluateTicks > tick ==>
                    next <= wake[c.agvIds[k]].0 + reevaluateTicks
      {
        var v := c.agvIds[i];
        if v in emptyWaitDue && tick < emptyWaitDue[v] < next { next := emptyWaitDue[v]; }
        if v in wake && tick < wake[v].0 + reevaluateTicks < next { next := wake[v].0 + reevaluateTicks; }
      }
    }

    /** All vehicles wait, none is serving and none is ready to serve. */
    ghost predicate MayJump(acts: Actions)
      reads this
    {
      && (forall v :: v in acts ==> acts[v].Wait?)
      && forall v :: v in agvs ==> agvs[v].service.None? && !TrafficReady(c, View(), v)
    }

    method AnyBusy(acts: Actions) returns (busy: bool)
      requires SetOf(c.agvIds) == agvs.Keys && acts.Keys <= agvs.Keys
      ensures busy <==> !MayJump(acts)
    {
      ghost var ids := c.agvIds;
      assert forall v :: v in agvs ==> v in SetOf(c.agvIds);
      for i := 0 to |c.agvIds|
        invariant forall k :: 0 <= k < i && c.agvIds[k] in acts ==> acts[c.agvIds[k]].Wait?
        invariant forall k :: 0 <= k < i ==> c.agvIds[k] in agvs && agvs[c.agvIds[k]].service.None? && !TrafficReady(c, View(), c.agvIds[k])
      {
        var v := c.agvIds[i];
        assert v in SetOf(c.agvIds);
        if (v in acts && !acts[v].Wait?) || agvs[v].service.Some? || TrafficReady(c, View(), v) { return true; }
      }
      return false;
    }

    /** The next calendar entry: nothing is scheduled between now and then. */
    method NextEvent() returns (next: int)
      requires forall d :: d in c.demandIds ==> d in c.demands
      requires forall m :: m in c.machineIds ==> m in machines
      ensures EventAt(next) && next <= c.tickLimit
      ensures forall t {:trigger EventAt(t)} :: EventAt(t) && t > tick ==> next <= t
      ensures tick < c.tickLimit && reevaluateTicks >= 1 && (forall m :: m in machines && machines[m].status.Processing? ==> machines[m].remaining >= 1)
              ==> next > tick
    {
      hide *;
      next := NextDeclared();
      var b := NextCompletion();
      var w := NextWake();
      NothingBetween(next, b, w);
      if b < next { next := b; }
      if w < next { next := w; }
      EventsLieAhead(next);
    }

    ghost predicate BeforeDeclared(next: int)
      reads this
    {
      && (forall d :: d in c.demandIds && d in c.demands && c.demands[d].releaseAt > tick ==> next <= c.demands[d].releaseAt)
      && forall o :: o in c.outages ==> (o.start > tick ==> next <= o.start) && (o.end > tick ==> next <= o.end)
    }

    ghost predicate BeforeCompletions(next: int)
      reads this
    {
      forall m :: m in c.machineIds && m in machines && machines[m].status.Processing? && !machines[m].down ==> next <= tick + machines[m].remaining
    }

    ghost predicate BeforeWakes(next: int)
      reads this
    {
      && (forall v :: v in c.agvIds && v in emptyWaitDue && emptyWaitDue[v] > tick ==> next <= emptyWaitDue[v])
      && forall v :: v in c.agvIds && v in wake && wake[v].0 + reevaluateTicks > tick ==> next <= wake[v].0 + reevaluateTicks
    }

    lemma NothingBetween(a: int, b: int, w: int)
      requires a <= c.tickLimit && BeforeDeclared(a) && BeforeCompletions(b) && BeforeWakes(w) && w <= tick + reevaluateTicks
      ensures forall t {:trigger EventAt(t)} :: EventAt(t) && t > tick ==> a <= t || b <= t || w <= t
    {
    }

    lemma EventsLieAhead(next: int)
      requires EventAt(next)
      ensures tick < c.tickLimit && reevaluateTicks >= 1 && (forall m :: m in machines && machines[m].status.Processing? ==> machines[m].remaining >= 1)
              ==> next > tick
    {
    }

    /** The longest jump the calendar allows. */
    method CalendarJump() returns (k: int)
      requires WellFormed(c) && Inv(c, View()) && NoServices(agvs) && reevaluateTicks >= 1
      ensures k >= 1 && (k > 1 ==> EventAt(tick + k) && Quiet(c, View(), k))
      ensures forall t {:trigger EventAt(t)} :: EventAt(t) && t > tick ==> tick + k <= t
      ensures tick < c.tickLimit ==> EventAt(tick + k)
    {
      hide *;
      Listed(c, View());
      Fields();
      AllListed(c, agvs, machines);
      AllRunning();
      var next := NextEvent();
      k := if next - tick < 1 then 1 else next - tick;
      if k > 1 { CalendarQuiet(next); }
    }

    /** `idle_interval` */
    method IdleInterval(acts: Actions) returns (k: int)
      requires WellFormed(c) && Inv(c, View()) && acts.Keys <= agvs.Keys && reevaluateTicks >= 1
      ensures k >= 1
      ensures k > 1 ==> MayJump(acts) && EventAt(tick + k) && Quiet(c, View(), k)
      ensures MayJump(acts) ==> forall t {:trigger EventAt(t)} :: EventAt(t) && t > tick ==> tick + k <= t
      ensures MayJump(acts) && tick < c.tickLimit ==> EventAt(tick + k)
    {
      Listed(c, View());
      hide Inv, WellFormed, EventAt, Quiet, View, TrafficReady;
      var busy := AnyBusy(acts);
      if busy { return 1; }
      k := CalendarJump();
    }

    lemma AllRunning()
      requires WellFormed(c) && Inv(c, View())
      ensures forall m :: m in machines && machines[m].status.Processing? ==> machines[m].remaining >= 1
    {
      forall m | m in machines && machines[m].status.Processing? ensures machines[m].remaining >= 1 { RunningOn(c, View(), m); }
    }

    lemma CalendarQuiet(next: int)
      requires WellFormed(c) && Inv(c, View()) && tick + 1 < next <= c.tickLimit && NoServices(agvs)
      requires forall t {:trigger EventAt(t)} :: EventAt(t) && t > tick ==> next <= t
      ensures Quiet(c, View(), next - tick)
    {
      Listed(c, View());
      Fields();
      hide Inv, WellFormed, View;
      ghost var s := View();
      forall m | m in s.machines ensures WithinWork(s.machines, m, next - tick) {
        assert m in SetOf(c.machineIds);
        assert EventAt(tick + s.machines[m].remaining) || !s.machines[m].status.Processing? || s.machines[m].down;
        RunningOn(c, s, m);
      }
      forall d | d in c.demands && s.tick < c.demands[d].releaseAt ensures s.tick + (next - tick) <= c.demands[d].releaseAt {
        assert d in SetOf(c.demandIds);
        assert EventAt(c.demands[d].releaseAt);
      }
      forall o | o in c.outages ensures !(s.tick < o.start <= next - 1) && !(s.tick < o.end <= next - 1) {
        assert o.start > tick ==> EventAt(o.start);
        assert o.end > tick ==> EventAt(o.end);
      }
    }

    // -- one step ------------------------------------------------------------------------------

    /** The joint command as a map; duplicate and unknown vehicles are refused. */
    method ParseCommand(command: seq<(AgvId, Action)>) returns (acts: Actions, ok: bool)
      ensures ok <==> DistinctVehicles(command) && forall p :: p in command ==> p.0 in agvs
      ensures ok ==> acts == ActionsOf(command) && acts.Keys <= agvs.Keys
      ensures ok ==> (forall p :: p in command ==> p.0 in acts && acts[p.0] == p.1) && forall v :: v in acts ==> (v, acts[v]) in command
    {
      acts := map[];
      for i := 0 to |command|
        invariant acts == ActionsOf(command[..i]) && acts.Keys <= agvs.Keys
        invariant DistinctVehicles(command[..i]) && forall p :: p in command[..i] ==> p.0 in agvs
      {
        var (v, a) := command[i];
        assert command[..i + 1] == command[..i] + [command[i]];
        ActionsGrow(command[..i], command[i]);
        if v in acts || v !in agvs {
          NotDistinct(command, i);
          assert command[i] in command;
          return acts, false;
        }
        acts := acts[v := a];
      }
      assert command[..|command|] == command;
      ActionsMean(command);
      ok := true;
    }

    /** Overdue time of the demands that were outstanding when the interval began. */
    method CountOverdue(ghost before: Ledger, outstanding: set<DemandId>, from: int) returns (overdue: int)
      requires forall d :: d in c.demandIds ==> d in c.demands
      requires outstanding == before.released - before.shipped
      ensures overdue == Added(c, before, ledger, from, tick, c.demandIds)
    {
      overdue := 0;
      assert c.demandIds[|c.demandIds|..] == [];
      for i := |c.demandIds| downto 0
        invariant overdue == Added(c, before, ledger, from, tick, c.demandIds[i..])
      {
        var d := c.demandIds[i];
        assert c.demandIds[i..][0] == d && c.demandIds[i..][1..] == c.demandIds[i + 1..];
        if d in outstanding {
          overdue := overdue + Max(0, (if d in ledger.shipmentTimes then ledger.shipmentTimes[d] else tick) - c.demands[d].dueAt)
                     - Max(0, from - c.demands[d].dueAt);
        }
      }
    }

    /** Moves, the passing of time, services, processing and the boundary phase. */
    method CommitInterval(acts: Actions, elapsed: int)
      requires WellFormed(c) && Inv(c, View()) && Reachable(View(), elapsed)
      modifies `tick, `jobs, `queue, `storage, `machines, `agvs, `ledger, `idleSince, `assignments, `log
      ensures View() == Interval(c, old(View()), acts, elapsed)
      ensures Workday.Passed(c, old(View()), acts, elapsed, View())
    {
      hide *;
      ghost var s := View();
      MoveVehicles(acts);
      Fields();
      tick := tick + elapsed;
      Departed(c, s, acts, elapsed);
      Shown(Depart(c, s, acts, elapsed));
      Advance(elapsed);
      Boundary(false);
      IntervalParts(c, s, acts, elapsed);
      Workday.IntervalPasses(c, s, acts, elapsed);
    }

    /** One tick, or a jump that no calendar entry forbids. */
    ghost predicate Unhurried(acts: Actions, elapsed: int)
      reads this
    {
      elapsed == 1 || (MayJump(acts) && forall t {:trigger EventAt(t)} :: EventAt(t) && t > tick ==> tick + elapsed <= t)
    }

    /** Whether the parsed command may be committed for this long. */
    method Admissible(acts: Actions, elapsed: int) returns (ok: bool)
      requires WellFormed(c) && Inv(c, View()) && !Done(c, View()) && elapsed >= 1 && acts.Keys <= agvs.Keys && reevaluateTicks >= 1
      ensures ok <==> Unhurried(acts, elapsed)
      ensures ok ==> Allowed(c, View(), acts, elapsed) && Reachable(View(), elapsed)
    {
      hide Inv, WellFormed, EventAt, MayJump, Quiet;
      if elapsed == 1 {
        OneTickIsReachable(c, View());
        return true;
      }
      var k := IdleInterval(acts);
      ok := elapsed <= k;
      if ok {
        QuietShorter(c, View(), k, elapsed);
        JumpWaits(acts);
      }
    }

    lemma JumpWaits(acts: Actions)
      requires MayJump(acts)
      ensures forall v :: v in acts ==> acts[v].Wait?
    {
    }

    /** One committed interval and its reward. */
    method CommitAndPay(acts: Actions, elapsed: int) returns (reward: real)
      requires WellFormed(c) && Stable(c, View()) && Allowed(c, View(), acts, elapsed) && Reachable(View(), elapsed)
      modifies `tick, `jobs, `queue, `storage, `machines, `agvs, `ledger, `idleSince, `assignments, `log, `overdueTime, `totalReward
      ensures Paid(c, old(View()), acts, elapsed, View(), reward) && Workday.Passed(c, old(View()), acts, elapsed, View())
      ensures overdueTime == old(overdueTime) + Overdue(c, old(View()), View()) && totalReward == old(totalReward) + reward
    {
      ghost var s := View();
      hide Workday.Passed, Inv, WellFormed, Calm, DueReleased, Allowed, Interval, Reachable;
      var start, outstanding := tick, ledger.released - ledger.shipped;
      var previousPass, previousGood := ledger.shipped, |ledger.good|;
      CommitInterval(acts, elapsed);
      DemandsListed(c);
      var overdue := CountOverdue(s.ledger, outstanding, start);
      overdueTime := overdueTime + overdue;
      reward := Reward(c, overdue, |ledger.shipped - previousPass| - (|ledger.good| - previousGood));
      totalReward := totalReward + reward;
    }

    /** The last tick is reached, or every demand is shipped and no more can come. */
    ghost predicate Finished()
      reads this
    {
      tick >= c.tickLimit || (!c.dynamic && ledger.shipped == c.demands.Keys)
    }

    lemma FinishedMeans()
      requires WellFormed(c) && Inv(c, View())
      ensures Finished() == Done(c, View())
    {
      Over(c, View());
      hide Inv, WellFormed, Done;
    }

    /** `step`: the guards in their order, then one committed interval and its reward. */
    method Step(command: seq<(AgvId, Action)>, elapsed: int) returns (r: Outcome)
      requires WellFormed(c) && Stable(c, View()) && reevaluateTicks >= 1
      modifies `tick, `jobs, `queue, `storage, `machines, `agvs, `ledger, `idleSince, `assignments, `log, `overdueTime, `totalReward
      ensures old(Finished()) == Done(c, old(View()))
      ensures r == Refused(Ended) <==> old(Finished())
      ensures r == Refused(BadDuration) <==> !old(Finished()) && elapsed < 1
      ensures r == Refused(BadVehicle) <==>
                !old(Finished()) && elapsed >= 1 && !(DistinctVehicles(command) && forall p :: p in command ==> p.0 in old(agvs))
      ensures r == Refused(TooLong) <==>
                && !old(Finished()) && elapsed >= 1 && DistinctVehicles(command) && (forall p :: p in command ==> p.0 in old(agvs))
                && !old(Unhurried(ActionsOf(command), elapsed))
      ensures r.Refused? ==> View() == old(View()) && overdueTime == old(overdueTime) && totalReward == old(totalReward)
      ensures r.Committed? ==> Stable(c, View()) && Conservation.Check(c, View())
      ensures r.Committed? ==> overdueTime == old(overdueTime) + Overdue(c, old(View()), View()) && totalReward == old(totalReward) + r.reward
      ensures r.Committed? ==>
                Paid(c, old(View()), ActionsOf(command), elapsed, View(), r.reward) && Workday.Passed(c, old(View()), ActionsOf(command), elapsed, View())
    {
      ghost var s := View();
      hide *;
      StableIsSafe(c, s);
      FinishedMeans();
      if Done(c, View()) { return Refused(Ended); }
      if elapsed < 1 { return Refused(BadDuration); }
      var acts, ok := ParseCommand(command);
      if !ok { return Refused(BadVehicle); }
      ok := Admissible(acts, elapsed);
      if !ok { return Refused(TooLong); }
      var reward := CommitAndPay(acts, elapsed);
      PaidIsSafe(c, s, acts, elapsed, View(), reward);
      r := Committed(reward);
    }

    /** The chosen interval as single ticks, as recording does it. */
    method Subdivide(command: seq<(AgvId, Action)>, acts: Actions, elapsed: int) returns (reward: real)
      requires WellFormed(c) && Decided(c, View()) && reevaluateTicks >= 1 && elapsed >= 1
      requires DistinctVehicles(command) && (forall p :: p in command ==> p.0 in agvs) && acts == ActionsOf(command)
      requires elapsed > 1 ==> AllWait(acts) && Quiet(c, View(), elapsed)
      modifies `tick, `jobs, `queue, `storage, `machines, `agvs, `ledger, `idleSince, `assignments, `log, `overdueTime, `totalReward
      ensures View() == Ticks(c, old(View()), acts, elapsed)
      ensures Earned(c, old(View()), View(), overdueTime - old(overdueTime), reward) && totalReward == old(totalReward) + reward
    {
      hide *;
      ghost var s := View();
      SubdivideStarts(c, s, acts, elapsed);
      EarnsNothing(c, s);
      Fields();
      reward := 0.0;
      for i := 0 to elapsed
        invariant Subdividing(c, s, View(), acts, elapsed, elapsed - i) && View().agvs == agvs && agvs.Keys == s.agvs.Keys
        invariant Earned(c, s, View(), overdueTime - old(overdueTime), reward) && totalReward == old(totalReward) + reward
      {
        ghost var u := View();
        SubdivideReady(c, s, u, acts, elapsed, elapsed - i);
        OneTickFits(acts);
        var paid := SingleStep(command, acts, 1);
        SubdivideStep(c, s, u, View(), acts, elapsed, elapsed - i, paid, overdueTime - old(overdueTime), reward);
        reward := reward + paid;
        Fields();
      }
      SubdivideEnds(c, s, View(), acts, elapsed);
    }

    /** Vehicles that came to a port of their target arrive now. */
    method NoteArrivals(before: Movement.Cells)
      requires SetOf(c.agvIds) == agvs.Keys
      modifies `agvs
      ensures View() == Arrive(c, before, old(View())) && Workday.Noted(c, before, old(View()), View())
    {
      hide *;
      ghost var s, rows := View(), agvs;
      Fields();
      NoneArrived(c, before, rows, tick);
      assert c.agvIds[..0] == [];
      for i := 0 to |c.agvIds|
        invariant Arriving(c, before, rows, agvs, tick, c.agvIds[..i])
      {
        var v := c.agvIds[i];
        assert v in SetOf(c.agvIds);
        assert c.agvIds[..i + 1] == c.agvIds[..i] + [v];
        ArriveOne(c, before, rows, agvs, tick, c.agvIds[..i], v);
        if Reaches(c, before, v, agvs[v]) { agvs := agvs[v := agvs[v].(arrivedAt := tick)]; }
      }
      assert c.agvIds[..|c.agvIds|] == c.agvIds;
      AllArrived(c, before, s, agvs);
      Workday.ArrivalsNoted(c, before, s);
      Shown(Arrive(c, before, s));
    }

    /** `advance`: the simulator's own choice of interval, as one jump or, when recording, as single
        ticks; state, overdue time and reward do not depend on which. The reservation check passes, and
        the idle clocks need no synchronizing then. */
    method AdvanceTime(command: seq<(AgvId, Action)>, recording: bool) returns (elapsed: int, reward: real)
      requires WellFormed(c) && Decided(c, View()) && reevaluateTicks >= 1
      requires DistinctVehicles(command) && forall p :: p in command ==> p.0 in agvs
      modifies `tick, `jobs, `queue, `storage, `machines, `agvs, `ledger, `idleSince, `assignments, `log, `overdueTime, `totalReward
      ensures elapsed >= 1 && Reachable(old(View()), elapsed) && Stable(c, View()) && tick == old(tick) + elapsed
      ensures Allowed(c, old(View()), ActionsOf(command), elapsed)
      ensures View() == Arrive(c, CellsOf(old(agvs)), Interval(c, old(View()), ActionsOf(command), elapsed))
      ensures exists t: State :: Workday.Passed(c, old(View()), ActionsOf(command), elapsed, t) && Workday.Noted(c, CellsOf(old(agvs)), t, View())
      ensures Earned(c, old(View()), View(), overdueTime - old(overdueTime), reward) && totalReward == old(totalReward) + reward
      ensures Checks.CheckReservations(c, View())
    {
      hide *;
      ghost var s := View();
      Fields();
      var before := CellsOf(agvs);
      DecidedParts(c, s);
      var acts, ok := ParseCommand(command);
      elapsed := IdleInterval(acts);
      ElapsedFits(acts, elapsed);
      ChosenIsAllowed(c, s, acts, elapsed);
      if recording {
        reward := Subdivide(command, acts, elapsed);
        ChosenJump(c, s, acts, elapsed);
      } else {
        reward := SingleStep(command, acts, elapsed);
        PaidEarns(c, s, acts, elapsed, View(), reward, Overdue(c, s, View()));
      }
      ghost var t := View();
      IntervalStable(c, s, acts, elapsed);
      Workday.IntervalPasses(c, s, acts, elapsed);
      Workday.ArrivalsNoted(c, before, t);
      Listed(c, t);
      Fields();
      NoteArrivals(before);
      ArrivalsSettle(c, s, acts, elapsed, before, overdueTime - old(overdueTime), reward);
      Listed(c, View());
      Fields();
      SyncIdleClocks();
    }

    lemma OneTickFits(acts: Actions)
      ensures Unhurried(acts, 1)
    {
    }

    lemma ElapsedFits(acts: Actions, k: int)
      requires WellFormed(c) && Inv(c, View()) && k >= 1 && (k > 1 ==> MayJump(acts) && Quiet(c, View(), k))
      requires MayJump(acts) ==> forall t {:trigger EventAt(t)} :: EventAt(t) && t > tick ==> tick + k <= t
      ensures Unhurried(acts, k) && Reachable(View(), k)
      ensures k > 1 ==> AllWait(acts) && Quiet(c, View(), k) && NoneReady(View())
    {
      hide Inv, EventAt;
      if k > 1 {
        assert View().agvs == agvs;
        JumpsNoneReady(c, View());
      } else {
        OneTickIsReachable(c, View());
      }
    }

    /** A step of the chosen length is never refused while the run is on. */
    method SingleStep(command: seq<(AgvId, Action)>, acts: Actions, elapsed: int) returns (reward: real)
      requires WellFormed(c) && Stable(c, View()) && !Done(c, View()) && reevaluateTicks >= 1
      requires DistinctVehicles(command) && (forall p :: p in command ==> p.0 in agvs) && acts == ActionsOf(command)
      requires elapsed >= 1 && Unhurried(acts, elapsed)
      modifies `tick, `jobs, `queue, `storage, `machines, `agvs, `ledger, `idleSince, `assignments, `log, `overdueTime, `totalReward
      ensures Paid(c, old(View()), acts, elapsed, View(), reward)
      ensures overdueTime == old(overdueTime) + Overdue(c, old(View()), View()) && totalReward == old(totalReward) + reward
    {
      hide *;
      var r := Step(command, elapsed);
      match r
      case Committed(paid) => reward := paid;
      case Refused(reason) =>
        match reason
        case Ended =>
        case BadDuration =>
        case BadVehicle =>
        case TooLong =>
    }

    /** The transport part of `choose`. */
    method AssignTask(v: AgvId, j: JobId, b: BufferId)
      requires v in agvs && j in jobs && (agvs[v].job.None? ==> jobs[j].loc.Stored?)
      modifies `agvs, `assignments, `log
      ensures View() == Assign(c, old(View()), v, j, b)
    {
      assignments := assignments[v := Assignment(j, b)];
      var goal := if agvs[v].job.Some? then b else jobs[j].loc.place.owner;
      agvs := agvs[v := agvs[v].(target := Some(goal), arrivedAt := tick)];
      log := log + [TaskAssigned(tick, v, j, b)];
    }

    lemma Shown(t: State)
      requires tick == t.tick && jobs == t.jobs && queue == t.queue && storage == t.storage && machines == t.machines
      requires agvs == t.agvs && idleSince == t.idleSince && assignments == t.assignments && log == t.log
      requires ledger == t.ledger
      ensures View() == t
    {
    }

    lemma Fields()
      ensures View().tick == tick && View().jobs == jobs && View().queue == queue && View().storage == storage
      ensures View().machines == machines && View().agvs == agvs && View().assignments == assignments && View().log == log
      ensures View().idleSince == idleSince
      ensures View().ledger == ledger
    {
    }

    /** `sync_idle_clocks` */
    method SyncIdleClocks()
      requires NoDup(c.agvIds) && SetOf(c.agvIds) == agvs.Keys && idleSince.Keys <= agvs.Keys
      modifies `idleSince
      ensures View() == SyncIdle(c, old(View()))
      ensures Done(c, View()) ==> idleSince == map[]
      ensures !Done(c, View()) ==> forall v :: v in idleSince <==> v in agvs && agvs[v].job.None? && agvs[v].target.None? && agvs[v].service.None?
      ensures !Done(c, View()) ==> forall v :: v in idleSince ==> idleSince[v] == if v in old(idleSince) then old(idleSince)[v] else tick
    {
      if Done(c, View()) {
        idleSince := map[];
        return;
      }
      ghost var clocks := idleSince;
      for i := 0 to |c.agvIds|
        invariant idleSince.Keys <= agvs.Keys && ClocksAt(c.agvIds, agvs, clocks, idleSince, tick, i)
      {
        var v := c.agvIds[i];
        assert v in SetOf(c.agvIds);
        ghost var before := idleSince;
        if IdleVehicle(agvs[v]) {
          if v !in idleSince { idleSince := idleSince[v := tick]; }
        } else {
          idleSince := idleSince - {v};
        }
        ClockStep(c.agvIds, agvs, clocks, before, idleSince, tick, i);
      }
      ClocksDone(c.agvIds, agvs, clocks, idleSince, tick);
    }
  }

  lemma BlockedJob(c: Scenario, s: State, m: MachineId)
    requires WellFormed(c) && Inv(c, s) && m in c.machines
    ensures m in s.machines && Shaped(c, s) && m in c.post && c.post[m] in c.buffers && GoodMachine(c, m)
    ensures s.machines[m].job.Some? ==> s.machines[m].job.value in s.jobs && s.jobs[s.machines[m].job.value].loc == AtMachine(m)
    ensures s.machines[m].status.Blocked? ==> s.machines[m].job.Some?
  {
    assert MachineOk(c, s.jobs, m, s.machines[m]) && GoodMachine(c, m) && MachineNames(s.jobs, s.machines, m);
  }

  lemma UnblockCases(c: Scenario, s: State, m: MachineId)
    requires WellFormed(c) && Inv(c, s) && m in c.machines
    ensures m in s.machines && m in c.post && c.post[m] in c.buffers && Shaped(c, s)
    ensures !s.machines[m].status.Blocked? ==> Operations.Unblock(c, s, m) == s
    ensures s.machines[m].status.Blocked? ==>
      && s.machines[m].job.Some? && var j := s.machines[m].job.value;
      && j in s.jobs && s.jobs[j].loc == AtMachine(m)
      && (Capable(c, j, s.jobs[j].step, m) ==>
            Operations.Unblock(c, s, m) == s.(machines := s.machines[m := s.machines[m].(status := Ready)], log := s.log + [Retained(s.tick, m, j)]))
      && (!Capable(c, j, s.jobs[j].step, m) && Free(c, s, c.post[m]).None? ==> Operations.Unblock(c, s, m) == s)
      && (!Capable(c, j, s.jobs[j].step, m) && Free(c, s, c.post[m]).Some? ==>
            Place(c.post[m], Free(c, s, c.post[m]).value) in s.storage
            && Operations.Unblock(c, s, m) == ReleaseJob(s, m, j, Place(c.post[m], Free(c, s, c.post[m]).value)))
  {
    BlockedJob(c, s, m);
  }

  lemma QuietShorter(c: Scenario, s: State, k: int, less: int)
    requires Quiet(c, s, k) && 1 <= less <= k
    ensures Quiet(c, s, less)
  {
    forall m | m in s.machines ensures WithinWork(s.machines, m, less) { assert WithinWork(s.machines, m, k); }
  }

  /** A committed interval: allowed, specified by `Interval`, and paid. */
  ghost predicate Paid(c: Scenario, s: State, acts: Actions, k: int, t: State, reward: real) {
    && WellFormed(c) && Stable(c, s) && Allowed(c, s, acts, k) && Reachable(s, k) && t == Interval(c, s, acts, k)
    && reward == Reward(c, Overdue(c, s, t), Rewards.Failed(s, t))
  }

  lemma StableIsSafe(c: Scenario, s: State)
    requires WellFormed(c) && Stable(c, s)
    ensures Inv(c, s)
  {
    hide Inv;
  }

  /** A run is over at its last tick, and once every demand is shipped unless it is dynamic. */
  lemma Over(c: Scenario, s: State)
    requires WellFormed(c) && Inv(c, s)
    ensures Done(c, s) <==> s.tick >= c.tickLimit || (!c.dynamic && s.ledger.shipped == c.demands.Keys)
  {
    InvLedger(c, s);
    hide Inv, WellFormed;
    SubsetSize(s.ledger.shipped, c.demands.Keys);
    if |s.ledger.shipped| == |c.demands.Keys| {
      assert c.demands.Keys == s.ledger.shipped + (c.demands.Keys - s.ledger.shipped);
      assert |c.demands.Keys - s.ledger.shipped| == 0;
    }
    assert |c.demands| == |c.demands.Keys|;
  }

  lemma Departed(c: Scenario, s: State, acts: Actions, k: int)
    requires WellFormed(c) && Inv(c, s) && Reachable(s, k)
    ensures var t, u := Move(c, s, acts), Depart(c, s, acts, k);
            && u == t.(tick := s.tick + k) && t.tick == s.tick && Inv(c, u) && Reachable(u, k)
  {
    hide Inv, Reachable, MoveEvents, RejectEvents, Movement.Committed;
  }

  lemma IntervalParts(c: Scenario, s: State, acts: Actions, k: int)
    requires WellFormed(c) && Inv(c, s) && Reachable(s, k)
    ensures Interval(c, s, acts, k) == Physics.Boundary(c, Stepping.Advance(c, Depart(c, s, acts, k), k), false)
  {
    hide Inv, Reachable, Depart, Stepping.Advance, Physics.Boundary;
  }

  /** `_check` passes after every step. */
  lemma PaidIsSafe(c: Scenario, s: State, acts: Actions, k: int, t: State, reward: real)
    requires WellFormed(c) && Stable(c, s) && Paid(c, s, acts, k, t, reward)
    ensures Stable(c, t) && Conservation.Check(c, t)
  {
    hide Inv, Interval, Conservation.Check;
    DueNotEarly(c, s);
    Conservation.CheckNeverFails(c, t);
  }

  // -- subdivision -----------------------------------------------------------------------------

  /** `left` single ticks of `total` are still to be made from `u`. */
  ghost predicate Subdividing(c: Scenario, s: State, u: State, acts: Actions, total: int, left: int) {
    && WellFormed(c) && Inv(c, s) && Stable(c, u) && 0 <= left <= total && Ticks(c, u, acts, left) == Ticks(c, s, acts, total)
    && (left >= 1 ==> Decided(c, u)) && (left >= 2 ==> AllWait(acts) && Quiet(c, u, left))
  }

  lemma SubdivideStarts(c: Scenario, s: State, acts: Actions, total: int)
    requires WellFormed(c) && Decided(c, s) && total >= 1 && (total > 1 ==> AllWait(acts) && Quiet(c, s, total))
    ensures Subdividing(c, s, s, acts, total, total)
  {
    hide Inv;
  }

  lemma EarnsNothing(c: Scenario, s: State)
    requires WellFormed(c)
    ensures Earned(c, s, s, 0, 0.0)
  {
    NoReward(c);
  }

  lemma SubdivideReady(c: Scenario, s: State, u: State, acts: Actions, total: int, left: int)
    requires Subdividing(c, s, u, acts, total, left) && left >= 1
    ensures WellFormed(c) && Stable(c, u) && !Done(c, u)
  {
    hide Inv;
  }

  lemma SubdivideNext(c: Scenario, s: State, u: State, t: State, acts: Actions, total: int, left: int)
    requires Subdividing(c, s, u, acts, total, left) && left >= 1
    requires WellFormed(c) && Stable(c, u) && Reachable(u, 1) && t == Interval(c, u, acts, 1)
    ensures Subdividing(c, s, t, acts, total, left - 1)
  {
    hide Inv, Interval, Ticks, AllFirm, Calm, DueReleased;
    TicksStep(c, u, acts, left);
    if left >= 2 {
      FirstTick(c, u, t, acts, left);
    } else {
      TickStable(c, u, acts);
    }
  }

  lemma TickStable(c: Scenario, u: State, acts: Actions)
    requires WellFormed(c) && Stable(c, u) && Reachable(u, 1)
    ensures Stable(c, Interval(c, u, acts, 1))
  {
    hide Inv, Interval;
    DueNotEarly(c, u);
  }

  /** Overdue time and reward collected between two states. */
  ghost predicate Earned(c: Scenario, s: State, t: State, overdue: int, reward: real)
    requires WellFormed(c)
  {
    overdue == Lateness(c, t) - Lateness(c, s) && reward == Reward(c, overdue, Bad(t) - Bad(s))
  }

  lemma SubdivideStep(c: Scenario, s: State, u: State, t: State, acts: Actions, total: int, left: int, paid: real,
                      overdue: int, reward: real)
    requires Subdividing(c, s, u, acts, total, left) && left >= 1 && WellFormed(c) && Stable(c, u)
    requires Paid(c, u, acts, 1, t, paid) && Earned(c, s, u, overdue - Overdue(c, u, t), reward)
    ensures Subdividing(c, s, t, acts, total, left - 1) && t.agvs.Keys == u.agvs.Keys
    ensures Earned(c, s, t, overdue, reward + paid)
  {
    hide Inv, Interval, Calm, Lateness, Overdue, Reward, Bad, Rewards.Failed, Subdividing;
    SubdivideNext(c, s, u, t, acts, total, left);
    IntervalBooks(c, u, acts, 1);
    BooksPay(c, u, t);
    SameVehicles(c, u, t);
    RewardAdds(c, overdue - Overdue(c, u, t), Bad(u) - Bad(s), Overdue(c, u, t), Rewards.Failed(u, t));
    assert overdue - Overdue(c, u, t) + Overdue(c, u, t) == overdue;
    assert Bad(u) - Bad(s) + Rewards.Failed(u, t) == Bad(t) - Bad(s);
  }

  lemma SameVehicles(c: Scenario, s: State, t: State)
    requires WellFormed(c) && Inv(c, s) && Inv(c, t)
    ensures t.agvs.Keys == s.agvs.Keys
  {
  }

  lemma DecidedParts(c: Scenario, s: State)
    requires WellFormed(c) && Decided(c, s)
    ensures Inv(c, s) && Stable(c, s) && !Done(c, s)
  {
  }

  lemma ChosenIsAllowed(c: Scenario, s: State, acts: Actions, k: int)
    requires WellFormed(c) && !Done(c, s) && k >= 1 && (k > 1 ==> AllWait(acts) && Quiet(c, s, k))
    ensures Allowed(c, s, acts, k)
  {
    hide Quiet;
  }

  lemma ChosenJump(c: Scenario, s: State, acts: Actions, k: int)
    requires WellFormed(c) && Decided(c, s) && k >= 1 && Inv(c, s) && Reachable(s, k)
    requires k > 1 ==> AllWait(acts) && Quiet(c, s, k) && NoneReady(s)
    ensures Ticks(c, s, acts, k) == Interval(c, s, acts, k)
  {
    hide Inv, Interval, Ticks, AllFirm;
    if k > 1 {
      JumpIsTicks(c, s, acts, k);
    } else {
      OneTickIsReachable(c, s);
      TicksOne(c, s, acts);
    }
  }

  lemma PaidParts(c: Scenario, s: State, acts: Actions, k: int, t: State, reward: real)
    requires WellFormed(c) && Stable(c, s) && Paid(c, s, acts, k, t, reward)
    ensures Inv(c, s) && Allowed(c, s, acts, k) && Reachable(s, k) && t == Interval(c, s, acts, k)
    ensures reward == Reward(c, Overdue(c, s, t), Rewards.Failed(s, t))
  {
    hide Inv, Interval, Calm, Overdue, Reward, Rewards.Failed;
  }

  lemma PaidEarns(c: Scenario, s: State, acts: Actions, k: int, t: State, reward: real, overdue: int)
    requires WellFormed(c) && Stable(c, s) && Paid(c, s, acts, k, t, reward) && overdue == Overdue(c, s, t)
    ensures Inv(c, s) && Reachable(s, k) && t == Interval(c, s, acts, k)
    ensures Earned(c, s, t, overdue, reward)
  {
    hide *;
    PaidParts(c, s, acts, k, t, reward);
    IntervalBooks(c, s, acts, k);
    IntervalTick(c, s, acts, k);
    BooksPay(c, s, t);
    EarnedIs(c, s, t, overdue, reward);
  }

  lemma IntervalTick(c: Scenario, s: State, acts: Actions, k: int)
    requires WellFormed(c) && Inv(c, s) && Reachable(s, k)
    ensures Interval(c, s, acts, k).tick == s.tick + k
  {
  }

  lemma EarnedIs(c: Scenario, s: State, t: State, overdue: int, reward: real)
    requires WellFormed(c) && Lateness(c, t) == Lateness(c, s) + overdue && Bad(t) == Bad(s) + Rewards.Failed(s, t)
    requires reward == Reward(c, overdue, Rewards.Failed(s, t))
    ensures Earned(c, s, t, overdue, reward)
  {
  }

  lemma IntervalStable(c: Scenario, s: State, acts: Actions, k: int)
    requires WellFormed(c) && Stable(c, s) && Reachable(s, k)
    ensures Stable(c, Interval(c, s, acts, k))
  {
    hide Inv, Interval;
    DueNotEarly(c, s);
  }

  /** The arrivals among the vehicles of the list are noted. */
  ghost predicate Arriving(c: Scenario, before: Movement.Cells, rows: Agvs, agvs: Agvs, tick: int, ids: seq<AgvId>) {
    && agvs.Keys == rows.Keys
    && forall v :: v in rows ==> agvs[v] == if v in ids && Reaches(c, before, v, rows[v]) then rows[v].(arrivedAt := tick) else rows[v]
  }

  lemma NoneArrived(c: Scenario, before: Movement.Cells, rows: Agvs, tick: int)
    ensures Arriving(c, before, rows, rows, tick, [])
  {
  }

  lemma ArriveOne(c: Scenario, before: Movement.Cells, rows: Agvs, agvs: Agvs, tick: int, ids: seq<AgvId>, v: AgvId)
    requires Arriving(c, before, rows, agvs, tick, ids) && v in rows
    ensures v in agvs
    ensures Arriving(c, before, rows, if Reaches(c, before, v, agvs[v]) then agvs[v := agvs[v].(arrivedAt := tick)] else agvs, tick, ids + [v])
  {
  }

  lemma AllArrived(c: Scenario, before: Movement.Cells, s: State, agvs: Agvs)
    requires SetOf(c.agvIds) == s.agvs.Keys && Arriving(c, before, s.agvs, agvs, s.tick, c.agvIds)
    ensures var t := Arrive(c, before, s);
            && t.agvs == agvs && t.tick == s.tick && t.jobs == s.jobs && t.queue == s.queue && t.storage == s.storage && t.machines == s.machines
            && t.idleSince == s.idleSince && t.assignments == s.assignments && t.log == s.log && t.ledger == s.ledger
  {
    assert forall v :: v in s.agvs ==> v in SetOf(c.agvIds);
    assert agvs == Arrive(c, before, s).agvs;
  }

  /** Synchronizing would change nothing. */
  ghost predicate InSync(c: Scenario, t: State) {
    t.idleSince == RunningClocks(t.agvs, t.idleSince, t.tick, Done(c, t))
  }

  lemma ServicesSync(c: Scenario, s: State)
    requires WellFormed(c) && Inv(c, s)
    ensures InSync(c, CompleteServices(c, s))
  {
    hide Inv, WellFormed, Serviced;
    SyncTwice(c, Serviced(c, s));
  }

  lemma SyncTwice(c: Scenario, s: State)
    ensures InSync(c, SyncIdle(c, s))
  {
  }

  lemma SyncLasts(c: Scenario, s: State, t: State)
    requires InSync(c, s) && t.agvs == s.agvs && t.idleSince == s.idleSince && t.tick == s.tick && t.ledger.shipped == s.ledger.shipped
    ensures InSync(c, t)
  {
  }

  /** The services phase synchronizes the clocks, and nothing touches them afterwards. */
  lemma IntervalSynced(c: Scenario, s: State, acts: Actions, k: int)
    requires WellFormed(c) && Inv(c, s) && Reachable(s, k)
    ensures InSync(c, Interval(c, s, acts, k))
  {
    hide Inv, WellFormed, InSync, CompleteServices, Depart, Works, Physics.Boundary, Reachable, Calm, DueReleased, NoneEarly, Settled;
    var a := Depart(c, s, acts, k);
    var v, u, t := CompleteServices(c, a), Advance(c, a, k), Interval(c, s, acts, k);
    ServicesSync(c, a);
    assert OnlyWork(v, u);
    SyncLasts(c, v, u);
    assert SameFleet(u, t);
    SyncLasts(c, u, t);
  }

  lemma ArrivesNow(c: Scenario, before: Movement.Cells, s: State)
    ensures Arrive(c, before, s).tick == s.tick
  {
  }

  lemma ArrivalsSync(c: Scenario, before: Movement.Cells, s: State)
    requires InSync(c, s)
    ensures SyncIdle(c, Arrive(c, before, s)) == Arrive(c, before, s)
  {
    var t := Arrive(c, before, s);
    assert SyncIdle(c, t).idleSince == t.idleSince;
  }

  lemma ArrivalsEarn(c: Scenario, before: Movement.Cells, s: State, u: State, overdue: int, reward: real)
    requires WellFormed(c) && Earned(c, s, u, overdue, reward)
    ensures Earned(c, s, Arrive(c, before, u), overdue, reward)
  {
    hide Reward;
    SameWorth(c, u, Arrive(c, before, u));
  }

  lemma ArrivalsStable(c: Scenario, before: Movement.Cells, s: State)
    requires WellFormed(c) && Stable(c, s)
    ensures var t := Arrive(c, before, s); Stable(c, t) && Inv(c, t) && Checks.CheckReservations(c, t)
  {
    hide Inv, Checks.CheckReservations;
    ArriveKeeps(c, before, s);
    ArriveCalm(c, before, s);
    SameDue(c, s, Arrive(c, before, s));
    Checks.ReservationsNeverFail(c, Arrive(c, before, s));
  }

  /** Arrivals change neither the idle clocks nor what the state is worth. */
  lemma ArrivalsSettle(c: Scenario, s: State, acts: Actions, k: int, before: Movement.Cells, overdue: int, reward: real)
    requires WellFormed(c) && Stable(c, s) && Inv(c, s) && Reachable(s, k) && Earned(c, s, Interval(c, s, acts, k), overdue, reward)
    ensures var t := Arrive(c, before, Interval(c, s, acts, k));
            && Stable(c, t) && Inv(c, t) && SyncIdle(c, t) == t && Earned(c, s, t, overdue, reward) && Checks.CheckReservations(c, t)
            && t.tick == s.tick + k
  {
    hide *;
    var u := Interval(c, s, acts, k);
    IntervalTick(c, s, acts, k);
    ArrivesNow(c, before, u);
    IntervalStable(c, s, acts, k);
    IntervalSynced(c, s, acts, k);
    ArrivalsSync(c, before, u);
    ArrivalsEarn(c, before, s, u, overdue, reward);
    ArrivalsStable(c, before, u);
  }

  lemma SubdivideEnds(c: Scenario, s: State, u: State, acts: Actions, total: int)
    requires Subdividing(c, s, u, acts, total, 0)
    ensures u == Ticks(c, s, acts, total)
  {
    hide Inv, Interval;
    NoTicks(c, u, acts);
  }

  // -- commands --------------------------------------------------------------------------------

  /** Why a step is refused. */
  datatype Refusal = Ended | BadDuration | BadVehicle | TooLong
  datatype Outcome = Committed(reward: real) | Refused(reason: Refusal)

  ghost predicate DistinctVehicles(command: seq<(AgvId, Action)>) {
    forall i, k :: 0 <= i < k < |command| ==> command[i].0 != command[k].0
  }

  /** `dict(command.agvs)`: later entries win. */
  function ActionsOf(command: seq<(AgvId, Action)>): Actions {
    if command == [] then map[]
    else ActionsOf(command[..|command| - 1])[command[|command| - 1].0 := command[|command| - 1].1]
  }

  lemma {:induction false} ActionKeys(command: seq<(AgvId, Action)>)
    ensures forall v :: v in ActionsOf(command) <==> exists i :: 0 <= i < |command| && command[i].0 == v
  {
    if command != [] {
      var less := command[..|command| - 1];
      ActionKeys(less);
      forall v ensures v in ActionsOf(command) <==> exists i :: 0 <= i < |command| && command[i].0 == v {
        if v in ActionsOf(less) {
          var i :| 0 <= i < |less| && less[i].0 == v;
          assert command[i].0 == v;
        }
        if i :| 0 <= i < |command| && command[i].0 == v {
          if i < |less| { assert less[i].0 == v; }
        }
      }
    }
  }

  /** Every action of a command without duplicates is kept, and no other. */
  lemma {:induction false} ActionsMean(command: seq<(AgvId, Action)>)
    requires DistinctVehicles(command)
    ensures forall p :: p in command ==> p.0 in ActionsOf(command) && ActionsOf(command)[p.0] == p.1
    ensures forall v :: v in ActionsOf(command) ==> (v, ActionsOf(command)[v]) in command
  {
    if command != [] {
      var less, last := command[..|command| - 1], command[|command| - 1];
      ActionsMean(less);
      forall p | p in less ensures p.0 != last.0 { var i :| 0 <= i < |less| && command[i] == p; }
      assert forall p :: p in command <==> p in less || p == last;
    }
  }

  lemma ActionsGrow(command: seq<(AgvId, Action)>, p: (AgvId, Action))
    ensures ActionsOf(command + [p]) == ActionsOf(command)[p.0 := p.1]
    ensures DistinctVehicles(command) && p.0 !in ActionsOf(command) ==> DistinctVehicles(command + [p])
  {
    assert (command + [p])[..|command|] == command;
    ActionKeys(command);
    if DistinctVehicles(command) && p.0 !in ActionsOf(command) {
      forall i, k | 0 <= i < k < |command + [p]| ensures (command + [p])[i].0 != (command + [p])[k].0 {
        if k == |command| { assert command[i].0 in ActionsOf(command); }
      }
    }
  }

  lemma NotDistinct(command: seq<(AgvId, Action)>, i: nat)
    requires i < |command|
    ensures command[i].0 in ActionsOf(command[..i]) ==> !DistinctVehicles(command)
  {
    ActionKeys(command[..i]);
  }

  // -- vehicles that are ready to serve --------------------------------------------------------

  /** `free_drop`: the first slot, in declared order, with room left by stock and unloading locks. */
  function FreeDrop(c: Scenario, s: State, b: BufferId, slots: seq<SlotId>): (r: Option<SlotId>)
    ensures r.Some? ==> r.value in slots && DropRoom(c, s, Place(b, r.value))
    ensures r.None? ==> forall k :: k in slots ==> !DropRoom(c, s, Place(b, k))
  {
    if slots == [] then None
    else if DropRoom(c, s, Place(b, slots[0])) then Some(slots[0])
    else FreeDrop(c, s, b, slots[1..])
  }

  predicate DropRoom(c: Scenario, s: State, p: Place) {
    && p in s.storage && p.owner in c.buffers && p.slot in c.buffers[p.owner].capacity
    && var cap := c.buffers[p.owner].capacity[p.slot];
       cap.None? || |s.storage[p]| + Checks.Unloading(s, p, c.agvIds) < cap.value
  }

  /** `ready`: jobs of a source that no vehicle is loading. */
  function ReadyJobs(s: State, b: BufferId): set<JobId> {
    set j | j in s.jobs && s.jobs[j].loc.Stored? && s.jobs[j].loc.place.owner == b
            && forall v :: v in s.agvs ==> !Loading(s.agvs[v], j)
  }

  /** `traffic_view`'s "ready". */
  predicate TrafficReady(c: Scenario, s: State, v: AgvId)
    requires v in s.agvs
  {
    && s.agvs[v].target.Some?
    && var b := s.agvs[v].target.value;
       if s.agvs[v].job.None? then ReadyJobs(s, b) != {}
       else b in c.buffers && FreeDrop(c, s, b, c.buffers[b].declared).Some?
  }

  lemma DropRoomMeans(c: Scenario, s: State, p: Place)
    requires WellFormed(c) && SetOf(c.agvIds) == s.agvs.Keys
    ensures DropRoom(c, s, p) <==> Phases.RoomAt(c, s, p)
  {
    Checks.UnloadingCount(s, p, c.agvIds);
    assert forall w :: w in c.agvIds <==> w in SetOf(c.agvIds);
    assert Checks.Unloaders(s, p, c.agvIds) == Phases.Unloaders(s, p);
    hide WellFormed;
  }

  lemma FreeDropMeans(c: Scenario, s: State, b: BufferId)
    requires WellFormed(c) && SetOf(c.agvIds) == s.agvs.Keys && b in c.buffers
    ensures FreeDrop(c, s, b, c.buffers[b].declared).Some? <==> exists k :: Phases.RoomAt(c, s, Place(b, k))
  {
    assert GoodBuffer(c, b);
    forall k ensures DropRoom(c, s, Place(b, k)) <==> Phases.RoomAt(c, s, Place(b, k)) { DropRoomMeans(c, s, Place(b, k)); }
    assert forall k :: DropRoom(c, s, Place(b, k)) ==> k in c.buffers[b].declared;
    hide WellFormed, DropRoom, Phases.RoomAt;
  }

  lemma ReadyMeans(s: State, b: BufferId, j: JobId)
    ensures j in ReadyJobs(s, b) <==> Phases.Available(s, b, j)
  {
  }

  /** A vehicle is ready exactly if what it came for is there. */
  lemma TrafficReadyMeans(c: Scenario, s: State, v: AgvId)
    requires WellFormed(c) && Inv(c, s) && v in s.agvs
    ensures TrafficReady(c, s, v) <==> Phases.CouldServe(c, s, v)
  {
    Listed(c, s);
    if s.agvs[v].target.Some? {
      var b := s.agvs[v].target.value;
      TargetBuffer(c, s, v);
      FreeDropMeans(c, s, b);
      forall j ensures j in ReadyJobs(s, b) <==> Phases.Available(s, b, j) { ReadyMeans(s, b, j); }
    }
    hide WellFormed, Inv, FreeDrop, Phases.Available, Phases.RoomAt, ReadyJobs;
  }

  lemma TargetBuffer(c: Scenario, s: State, v: AgvId)
    requires WellFormed(c) && Inv(c, s) && v in s.agvs && s.agvs[v].target.Some?
    ensures s.agvs[v].target.value in c.buffers
  {
    assert VehicleOk(c, s.jobs, s.agvs[v]);
  }

  lemma JumpsNoneReady(c: Scenario, s: State)
    requires forall v :: v in s.agvs ==> !TrafficReady(c, s, v)
    ensures NoneReady(s)
  {
    forall v | v in s.agvs ensures !LoadReady(s, v) {
      assert !TrafficReady(c, s, v);
      if s.agvs[v].job.None? && s.agvs[v].target.Some? {
        var b := s.agvs[v].target.value;
        forall j | j in s.jobs && s.jobs[j].loc.Stored? && s.jobs[j].loc.place.owner == b
          ensures exists w :: w in s.agvs && Loading(s.agvs[w], j)
        {
          assert j !in ReadyJobs(s, b);
        }
      }
    }
  }

  lemma RunningOn(c: Scenario, s: State, m: MachineId)
    requires WellFormed(c) && Inv(c, s) && m in s.machines
    ensures s.machines[m].status.Processing? ==> s.machines[m].remaining >= 1
  {
    assert MachineOk(c, s.jobs, m, s.machines[m]);
  }

  lemma AllListed(c: Scenario, agvs: Agvs, machines: Machines)
    requires SetOf(c.machineIds) == machines.Keys && SetOf(c.demandIds) == c.demands.Keys
    ensures (forall d :: d in c.demandIds ==> d in c.demands) && forall m :: m in c.machineIds ==> m in machines
  {
    assert forall d :: d in c.demandIds ==> d in SetOf(c.demandIds);
    assert forall m :: m in c.machineIds ==> m in SetOf(c.machineIds);
  }

  // -- committed moves -------------------------------------------------------------------------

  function Relocated(agvs: Agvs, moves: Movement.Cells, refused: set<AgvId>, ids: seq<AgvId>): Agvs {
    map v | v in agvs :: if v in ids && v in moves && v !in refused then agvs[v].(cell := moves[v]) else agvs[v]
  }

  lemma MoveEventsFirst(c: Scenario, s: State, acts: Actions, ids: seq<AgvId>)
    ensures ids == [] ==> MoveEvents(c, s, acts, ids) == []
    ensures ids != [] ==> MoveEvents(c, s, acts, ids) == MoveEvents(c, s, acts, [ids[0]]) + MoveEvents(c, s, acts, ids[1..])
  {
    hide CellsOf, MovesOf, Movement.Refused;
    if ids != [] { assert [ids[0]][1..] == []; }
  }

  lemma {:induction false} MoveEventsJoin(c: Scenario, s: State, acts: Actions, ids: seq<AgvId>, v: AgvId)
    ensures MoveEvents(c, s, acts, ids + [v]) == MoveEvents(c, s, acts, ids) + MoveEvents(c, s, acts, [v])
  {
    hide MoveEvents;
    MoveEventsFirst(c, s, acts, ids);
    MoveEventsFirst(c, s, acts, ids + [v]);
    if ids == [] {
      assert ids + [v] == [v];
    } else {
      assert (ids + [v])[1..] == ids[1..] + [v];
      MoveEventsJoin(c, s, acts, ids[1..], v);
    }
  }

  lemma RejectEventsFirst(c: Scenario, s: State, acts: Actions, ids: seq<AgvId>)
    ensures ids == [] ==> RejectEvents(c, s, acts, ids) == []
    ensures ids != [] ==> RejectEvents(c, s, acts, ids) == RejectEvents(c, s, acts, [ids[0]]) + RejectEvents(c, s, acts, ids[1..])
  {
    hide CellsOf, MovesOf, Movement.Refused, Permitted, ActionOf;
    if ids != [] { assert [ids[0]][1..] == []; }
  }

  lemma {:induction false} RejectEventsJoin(c: Scenario, s: State, acts: Actions, ids: seq<AgvId>, v: AgvId)
    ensures RejectEvents(c, s, acts, ids + [v]) == RejectEvents(c, s, acts, ids) + RejectEvents(c, s, acts, [v])
  {
    hide RejectEvents;
    RejectEventsFirst(c, s, acts, ids);
    RejectEventsFirst(c, s, acts, ids + [v]);
    if ids == [] {
      assert ids + [v] == [v];
    } else {
      assert (ids + [v])[1..] == ids[1..] + [v];
      RejectEventsJoin(c, s, acts, ids[1..], v);
    }
  }

  function Forbidden(c: Scenario, agvs: Agvs, acts: Actions): set<AgvId> {
    set v | v in agvs && !Permitted(c, agvs[v], ActionOf(acts, v))
  }

  lemma OneMoveEvent(c: Scenario, s: State, acts: Actions, moves: Movement.Cells, refused: set<AgvId>, v: AgvId)
    requires moves == MovesOf(c, s.agvs, acts) && refused == Movement.Refused(CellsOf(s.agvs), moves) && v in s.agvs
    ensures MoveEvents(c, s, acts, [v]) == if v in moves && v !in refused then [Moved(s.tick, v, s.agvs[v].cell, moves[v])] else []
  {
    hide MovesOf, CellsOf, Movement.Refused;
    assert [v][1..] == [];
  }

  lemma OneRejectEvent(c: Scenario, s: State, acts: Actions, invalid: set<AgvId>, refused: set<AgvId>, v: AgvId)
    requires invalid == Forbidden(c, s.agvs, acts) && v in s.agvs
    requires refused == Movement.Refused(CellsOf(s.agvs), MovesOf(c, s.agvs, acts))
    ensures RejectEvents(c, s, acts, [v]) == if v in refused then [Rejected(s.tick, v, true)]
                                             else if v in invalid then [Rejected(s.tick, v, false)] else []
  {
    hide MovesOf, CellsOf, Movement.Refused;
    assert [v][1..] == [];
  }

  lemma RelocateOne(agvs: Agvs, moves: Movement.Cells, refused: set<AgvId>, ids: seq<AgvId>, v: AgvId)
    requires v in agvs && v !in ids
    ensures var before := Relocated(agvs, moves, refused, ids);
            && before[v] == agvs[v]
            && Relocated(agvs, moves, refused, ids + [v])
               == if v in moves && v !in refused then before[v := before[v].(cell := moves[v])] else before
  {
  }

  lemma RelocatedAll(c: Scenario, agvs: Agvs, moves: Movement.Cells, refused: set<AgvId>)
    requires SetOf(c.agvIds) == agvs.Keys && moves.Keys <= agvs.Keys && refused == Movement.Refused(CellsOf(agvs), moves)
    ensures var after := Movement.Committed(CellsOf(agvs), moves);
            Relocated(agvs, moves, refused, c.agvIds) == map v | v in agvs :: agvs[v].(cell := after[v])
  {
    hide Movement.Refused;
    assert forall v :: v in agvs ==> v in SetOf(c.agvIds);
    forall v | v in agvs ensures agvs[v].(cell := agvs[v].cell) == agvs[v] {}
  }

  lemma CommitStart(c: Scenario, s: State, acts: Actions, moves: Movement.Cells, refused: set<AgvId>)
    ensures Relocated(s.agvs, moves, refused, []) == s.agvs && MoveEvents(c, s, acts, []) == []
  {
  }

  /** The next vehicle of the commit loop. */
  lemma CommitStep(c: Scenario, s: State, acts: Actions, moves: Movement.Cells, refused: set<AgvId>, i: nat)
    requires moves == MovesOf(c, s.agvs, acts) && refused == Movement.Refused(CellsOf(s.agvs), moves)
    requires i < |c.agvIds| && c.agvIds[i] in s.agvs && NoDup(c.agvIds)
    ensures var v, done, before := c.agvIds[i], c.agvIds[..i], Relocated(s.agvs, moves, refused, c.agvIds[..i]);
            && v in before && before[v] == s.agvs[v]
            && Relocated(s.agvs, moves, refused, c.agvIds[..i + 1])
               == (if v in moves && v !in refused then before[v := before[v].(cell := moves[v])] else before)
            && MoveEvents(c, s, acts, c.agvIds[..i + 1])
               == MoveEvents(c, s, acts, done) + if v in moves && v !in refused then [Moved(s.tick, v, s.agvs[v].cell, moves[v])] else []
  {
    hide MovesOf, CellsOf, Movement.Refused, MoveEvents;
    var v := c.agvIds[i];
    MoveEventsJoin(c, s, acts, c.agvIds[..i], v);
    OneMoveEvent(c, s, acts, moves, refused, v);
    assert c.agvIds[..i + 1] == c.agvIds[..i] + [v];
    NotEarlier(c.agvIds, i);
    RelocateOne(s.agvs, moves, refused, c.agvIds[..i], v);
  }

  function CommittedMoves(c: Scenario, s: State, acts: Actions, moves: Movement.Cells, refused: set<AgvId>): State {
    s.(agvs := Relocated(s.agvs, moves, refused, c.agvIds), log := s.log + MoveEvents(c, s, acts, c.agvIds))
  }

  lemma MoveParts(c: Scenario, s: State, acts: Actions, moves: Movement.Cells, refused: set<AgvId>)
    requires SetOf(c.agvIds) == s.agvs.Keys && moves == MovesOf(c, s.agvs, acts) && refused == Movement.Refused(CellsOf(s.agvs), moves)
    ensures var t := CommittedMoves(c, s, acts, moves, refused);
            t.tick == s.tick && Move(c, s, acts) == t.(log := t.log + RejectEvents(c, s, acts, c.agvIds))
  {
    hide MoveEvents, RejectEvents, MovesOf, Movement.Refused;
    RelocatedAll(c, s.agvs, moves, refused);
  }

  lemma MovesReported(c: Scenario, s: State, acts: Actions)
    requires WellFormed(c) && Inv(c, s)
    ensures var t := Move(c, s, acts); s.log <= t.log && Driving.Reported(c, s.agvs, acts, t.agvs, s.tick, t.log[|s.log|..])
  {
    Listed(c, s);
    assert forall v :: v in c.agvIds <==> v in SetOf(c.agvIds);
    hide Inv, WellFormed, Move, Driving.Reported;
    Driving.MoveReports(c, s, acts);
  }

  lemma FreshFields(c: Scenario)
    ensures var s := Fresh(c);
            && s.tick == 0 && s.jobs == map[] && s.queue == []
            && s.storage == EmptySlots(c) && s.machines == IdleMachines(c) && s.agvs == ParkedVehicles(c)
            && s.ledger == Ledger({}, map[], {}, map[], {}) && s.idleSince == map[] && s.assignments == map[] && s.log == []
  {
  }

  // -- specifications, field by field ----------------------------------------------------------

  /** What only time, releases, shipments and the vehicles' protocol change. */
  ghost predicate Untouched(s: State, t: State) {
    t.tick == s.tick && t.queue == s.queue && t.ledger == s.ledger && t.idleSince == s.idleSince && t.assignments == s.assignments
  }

  lemma ShipFields(s: State, j: JobId)
    requires j in s.jobs
    ensures var t := Ship(s, j); t.agvs == s.agvs && t.storage == s.storage && t.jobs.Keys == s.jobs.Keys && t.jobs[j].loc == s.jobs[j].loc
  {
  }

  lemma ServiceParts(c: Scenario, s: State, v: AgvId)
    requires WellFormed(c) && Inv(c, s) && v in s.agvs
    ensures s.agvs[v].service.Some? ==>
              var x := s.agvs[v].service.value;
              && x.job in s.jobs && x.place in s.storage && x.place.owner in c.buffers
              && (x.kind.Pickup? ==> s.jobs[x.job].loc == Stored(x.place) && Operations.Complete(c, s, v) == PickUp(s, v, x.job, x.place))
              && (x.kind.DropOff? ==> s.jobs[x.job].loc == OnAgv(v) && Operations.Complete(c, s, v) == Deliver(c, s, v, x.job, x.place)
                                      && !(c.buffers[x.place.owner].role.Output? && x.job.demand in s.ledger.shipped))
    ensures s.agvs[v].service.None? ==> Operations.Complete(c, s, v) == s
  {
    assert VehicleOk(c, s.jobs, s.agvs[v]) && AgvNames(s.jobs, s.agvs, v);
    if s.agvs[v].service.Some? {
      var x := s.agvs[v].service.value;
      assert KnownPlace(c, x.place) && LedgerRow(c, s.jobs[x.job], x.job, s.ledger);
    }
  }

  /** The order in which the assignments are visited. */
  lemma TurnsKnown(c: Scenario, s: State, turns: seq<AgvId>)
    requires WellFormed(c) && Inv(c, s) && turns == Turns(c, s.log)
    ensures InTurn(c, turns)
    ensures Withdraw(c, turns, s, |turns|) == WithdrawTasks(c, s) && Reconciles(c, turns, s, |turns|) == ReconcileTasks(c, s)
  {
    hide Inv, InTurn;
  }

  /** Without assignments there is nothing to withdraw or to reconcile. */
  lemma BaseIdles(c: Scenario, s: State)
    requires WellFormed(c) && Inv(c, s) && !c.central
    ensures WithdrawTasks(c, s) == s && ReconcileTasks(c, s) == s
  {
    hide Withdraw, Reconciles;
    assert NoneDown(c, s) && AllFirm(c, s);
  }

  lemma ReconcileCases(c: Scenario, s: State, v: AgvId)
    requires WellFormed(c) && Inv(c, s) && v in s.agvs
    ensures Shaped(c, s)
    ensures v !in s.assignments ==> Operations.Reconcile(c, s, v) == s
    ensures v in s.assignments ==>
              var x, a := s.assignments[v], s.agvs[v];
              && x.destination in c.buffers && x.job in s.jobs
              && Operations.Reconcile(c, s, v) ==
                 if !Eligible(c, s, x.destination) then Operations.Cancel(c, s, v)
                 else if a.job == Some(x.job) && a.target.None? then Aim(s, v, x.destination)
                 else if a.job.None? && s.jobs[x.job].loc.Stored? && s.jobs[x.job].loc.place.owner == x.destination
                 then s.(assignments := s.assignments - {v}) else s
  {
    if v in s.assignments { assert AssignmentOk(c, s.jobs, s.agvs[v], s.assignments[v]); }
  }

  lemma StartParts(c: Scenario, s: State, m: MachineId, j: JobId, mode: ModeId)
    requires WellFormed(c) && Inv(c, s) && Startable(c, s, m, j, mode)
    ensures Shaped(c, s) && j in s.jobs && m in s.machines && Capable(c, j, s.jobs[j].step, m) && mode in c.machines[m].modes
    ensures if s.machines[m].job.Some? then s.jobs[j].loc == AtMachine(m) else s.jobs[j].loc.Stored? && s.jobs[j].loc.place in s.storage
  {
    StartableJob(c, s, m, j, mode);
  }

  lemma StartFields(c: Scenario, s: State, m: MachineId, j: JobId, mode: ModeId,
                    storage: Lists, jobs: Rows, machines: Machines, log: seq<Event>)
    requires WellFormed(c) && Shaped(c, s) && Startable(c, s, m, j, mode)
    requires s.machines[m].job.Some? ==> s.jobs[j].loc == AtMachine(m)
    requires storage == if s.jobs[j].loc.Stored? then s.storage[s.jobs[j].loc.place := Without(s.storage[s.jobs[j].loc.place], j)] else s.storage
    requires jobs == s.jobs[j := s.jobs[j].(loc := AtMachine(m), since := s.tick)]
    requires var (actual, nominal) := Duration(c, j, s.jobs[j].step, m, mode);
             && machines == s.machines[m := s.machines[m].(job := Some(j), status := Processing, remaining := actual, elapsed := 0,
                                                           nominal := nominal, mode := Some(mode))]
             && log == s.log + [ProcessingStarted(s.tick, m, j, mode, nominal, actual)]
    ensures var t := Operations.Start(c, s, m, j, mode);
            t.storage == storage && t.jobs == jobs && t.machines == machines && t.log == log && t.agvs == s.agvs && Untouched(s, t)
  {
  }

  lemma StartBegins(c: Scenario, s: State, m: MachineId, j: JobId, mode: ModeId)
    requires WellFormed(c) && Inv(c, s) && Shaped(c, s) && Startable(c, s, m, j, mode)
    ensures Durations.Begun(c, s, Operations.Start(c, s, m, j, mode), m, j, mode)
  {
    StartableJob(c, s, m, j, mode);
    hide *;
    Durations.StartBegins(c, s, m, j, mode);
  }

  lemma WorkFields(c: Scenario, s: State, m: MachineId, k: int)
    requires WellFormed(c) && Inv(c, s) && m in c.machines
    ensures var t := Operations.Work(c, s, m, k); t.storage == s.storage && t.agvs == s.agvs && Untouched(s, t)
    ensures m in s.machines && var row := s.machines[m];
            var t := Operations.Work(c, s, m, k);
            if !row.status.Processing? || row.down then t.machines == s.machines && t.jobs == s.jobs && t.log == s.log
            else if row.remaining != k then
              && t.machines == s.machines[m := row.(remaining := row.remaining - k, elapsed := row.elapsed + k)]
              && t.jobs == s.jobs && t.log == s.log
            else
              && row.job.Some? && row.job.value in s.jobs && row.mode.Some? && row.mode.value in c.machines[m].modes
              && var j := row.job.value; var r := s.jobs[j];
                 var defect := c.qualityDraw(j, r.step) < c.machines[m].modes[row.mode.value].errorRate;
                 && t.jobs == s.jobs[j := r.(defective := r.defective || defect, quality := Unknown, step := r.step + 1)]
                 && t.machines == s.machines[m := row.(remaining := 0, elapsed := row.elapsed + k, status := Blocked)]
                 && t.log == s.log + [ProcessingCompleted(s.tick, j, m, r.step, row.elapsed + k)]
  {
    assert MachineOk(c, s.jobs, m, s.machines[m]);
  }

  // -- the admission loop ----------------------------------------------------------------------

  /** `u` is the state of the loop that began in `s`: `kept` stays queued, `rest` is to be examined. */
  ghost predicate Admitting(c: Scenario, s: State, u: State, kept: seq<JobId>, rest: seq<JobId>, full: set<BufferId>) {
    && WellFormed(c) && Inv(c, s) && Inv(c, u) && u.queue == kept + rest
    && AllStuck(c, u.storage, kept) && (forall b :: b in full ==> Crammed(c, u.storage, b))
    && Admit(c, u, kept, rest, full) == AdmitAll(c, s)
  }

  lemma AdmitStarts(c: Scenario, s: State)
    requires WellFormed(c) && Inv(c, s)
    ensures Admitting(c, s, s, [], s.queue, {})
  {
    hide Inv;
    assert s.queue == [] + s.queue;
  }

  lemma AdmitNext(c: Scenario, s: State, u: State, kept: seq<JobId>, rest: seq<JobId>, full: set<BufferId>)
    requires Admitting(c, s, u, kept, rest, full) && rest != []
    ensures WellFormed(c) && Shaped(c, u) && rest[0] in u.jobs && rest[0].demand in c.demands
    ensures var b := c.demands[rest[0].demand].input;
            b in c.buffers && (Free(c, u, b).Some? ==> Place(b, Free(c, u, b).value) in u.storage)
  {
    hide Admit, AdmitAll, AllStuck;
    QueuedJob(c, u, kept, rest);
  }

  lemma AdmitSkips(c: Scenario, s: State, u: State, kept: seq<JobId>, rest: seq<JobId>, full: set<BufferId>)
    requires Admitting(c, s, u, kept, rest, full) && rest != [] && Shaped(c, u) && rest[0].demand in c.demands
    requires var b := c.demands[rest[0].demand].input; b in c.buffers && (Free(c, u, b).None? || b in full)
    ensures Admitting(c, s, u, kept + [rest[0]], rest[1..], full + {c.demands[rest[0].demand].input})
  {
    hide Inv;
    assert u.queue == (kept + [rest[0]]) + rest[1..];
    AllStuckAppend(c, u.storage, kept, rest[0]);
  }

  lemma AdmitTakes(c: Scenario, s: State, u: State, kept: seq<JobId>, rest: seq<JobId>, full: set<BufferId>)
    requires Admitting(c, s, u, kept, rest, full) && rest != [] && Shaped(c, u) && rest[0] in u.jobs && rest[0].demand in c.demands
    requires var b := c.demands[rest[0].demand].input;
             b in c.buffers && Free(c, u, b).Some? && b !in full && Place(b, Free(c, u, b).value) in u.storage
    ensures var b := c.demands[rest[0].demand].input;
            Admitting(c, s, AdmitJob(u, rest[0], Place(b, Free(c, u, b).value), kept + rest[1..]), kept, rest[1..], full)
  {
    hide Inv;
    var b := c.demands[rest[0].demand].input;
    var p := Place(b, Free(c, u, b).value);
    QueuedJob(c, u, kept, rest);
    AdmitKeeps(c, u, rest[0], p, kept + rest[1..]);
    AdmitFrame(u, rest[0], p, kept + rest[1..]);
    StillFull(c, u, AdmitJob(u, rest[0], p, kept + rest[1..]), kept, full);
  }

  lemma AdmitEnds(c: Scenario, s: State, u: State, kept: seq<JobId>, full: set<BufferId>)
    requires Admitting(c, s, u, kept, [], full)
    ensures WellFormed(c) && Inv(c, s) && u == AdmitAll(c, s) && u.queue == kept
  {
    hide Inv;
    assert kept + [] == kept;
  }

  /** Free slots do not depend on the queue. */
  lemma SameFree(c: Scenario, s: State, t: State, owner: BufferId)
    requires WellFormed(c) && Shaped(c, s) && t == s.(queue := t.queue) && owner in c.buffers
    ensures Shaped(c, t) && Free(c, t, owner) == Free(c, s, owner)
  {
  }

  lemma FlagsFirst(c: Scenario, s: State, scan: bool)
    requires WellFormed(c) && Inv(c, s)
    ensures Flags(c, s, 0, scan) == s
  {
  }

  lemma FlagsNext(c: Scenario, s: State, n: nat, scan: bool)
    requires WellFormed(c) && Inv(c, s) && n < |c.machineIds|
    ensures var u, m := Flags(c, s, n, scan), c.machineIds[n];
            && m in u.machines
            && Flags(c, s, n + 1, scan) == Operations.SetDown(u, m, if scan then Covered(c.outages, m, u.tick) else DownAt(c.outages, m, u.tick))
  {
    hide Inv, Covered, DownAt, OnlyFlags, Flagged, FlagsCurrent, ScanAgrees;
    Listed(c, Flags(c, s, n, scan));
    assert c.machineIds[n] in SetOf(c.machineIds);
  }

  lemma WorksFirst(c: Scenario, s: State, k: int)
    requires WellFormed(c) && Inv(c, s) && Reachable(s, k)
    ensures Works(c, s, 0, k) == s
  {
    hide Inv, WellFormed, OnlyWork, Unworked, Workable, ShopWorks;
  }

  lemma WorksNext(c: Scenario, s: State, n: nat, k: int)
    requires WellFormed(c) && Inv(c, s) && Reachable(s, k) && n < |c.machineIds|
    ensures c.machineIds[n] in c.machines && Works(c, s, n + 1, k) == Operations.Work(c, Works(c, s, n, k), c.machineIds[n], k)
  {
    hide Inv, OnlyWork, Unworked, Workable, ShopWorks, Operations.Work;
    assert c.machineIds[n] in SetOf(c.machineIds);
  }

  /** What every method relies on about the identifier lists. */
  lemma Listed(c: Scenario, s: State)
    requires WellFormed(c) && Inv(c, s)
    ensures NoDup(c.agvIds) && SetOf(c.agvIds) == s.agvs.Keys && s.idleSince.Keys <= s.agvs.Keys
    ensures NoDup(c.machineIds) && SetOf(c.machineIds) == c.machines.Keys == s.machines.Keys
    ensures NoDup(c.demandIds) && SetOf(c.demandIds) == c.demands.Keys
    ensures NoDup(c.bufferIds) && SetOf(c.bufferIds) == c.buffers.Keys
  {
  }

  /** The first `n` vehicles of the list have synchronized clocks. */
  ghost predicate ClocksAt(ids: seq<AgvId>, agvs: Agvs, before: map<AgvId, int>, after: map<AgvId, int>, tick: int, n: nat) {
    forall k {:trigger ids[k]} :: 0 <= k < |ids| ==> ClockIs(ids[k], agvs, before, after, tick, k < n)
  }

  lemma ClockStep(ids: seq<AgvId>, agvs: Agvs, clocks: map<AgvId, int>, before: map<AgvId, int>, after: map<AgvId, int>, tick: int, i: nat)
    requires NoDup(ids) && i < |ids| && ids[i] in agvs && ClocksAt(ids, agvs, clocks, before, tick, i)
    requires after == if IdleVehicle(agvs[ids[i]]) then (if ids[i] in before then before else before[ids[i] := tick]) else before - {ids[i]}
    ensures ClocksAt(ids, agvs, clocks, after, tick, i + 1)
  {
    forall k | 0 <= k < |ids| ensures ClockIs(ids[k], agvs, clocks, after, tick, k < i + 1) {
      if k < i { NoDupIndex(ids, k, i); }
      if i < k { NoDupIndex(ids, i, k); }
    }
  }

  lemma ClocksDone(ids: seq<AgvId>, agvs: Agvs, clocks: map<AgvId, int>, after: map<AgvId, int>, tick: int)
    requires SetOf(ids) == agvs.Keys && after.Keys <= agvs.Keys && ClocksAt(ids, agvs, clocks, after, tick, |ids|)
    ensures after == RunningClocks(agvs, clocks, tick, false)
  {
    forall v | v in agvs ensures ClockIs(v, agvs, clocks, after, tick, true) {
      assert v in SetOf(ids);
      var k :| 0 <= k < |ids| && ids[k] == v;
    }
  }

  /** The clock of one vehicle, before or after it was looked at. */
  ghost predicate ClockIs(v: AgvId, agvs: Agvs, before: map<AgvId, int>, after: map<AgvId, int>, tick: int, done: bool) {
    if !done then (v in after <==> v in before) && (v in after ==> after[v] == before[v])
    else
      && (v in after <==> v in agvs && IdleVehicle(agvs[v]))
      && (v in after ==> after[v] == if v in before then before[v] else tick)
  }
}
