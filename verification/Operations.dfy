/** The atomic state changes of the simulator and of the two controllers. */
module Operations {
  import opened Collections
  import opened Factory
  import opened Custody
  import opened Safety

  // -- clocks ----------------------------------------------------------------------------------

  predicate Done(c: Scenario, s: State) {
    DoneAt(c, s.ledger.shipped, s.tick)
  }

  predicate DoneAt(c: Scenario, shipped: set<DemandId>, tick: int) {
    tick >= c.tickLimit || (!c.dynamic && |shipped| == |c.demands|)
  }

  predicate IdleVehicle(a: AgvRow) {
    a.job.None? && a.target.None? && a.service.None?
  }

  /** `sync_idle_clocks`: keep the start of a running idle period, start a new one now. */
  function SyncIdle(c: Scenario, s: State): State {
    s.(idleSince := RunningClocks(s.agvs, s.idleSince, s.tick, Done(c, s)))
  }

  function RunningClocks(agvs: map<AgvId, AgvRow>, idleSince: map<AgvId, int>, tick: int, done: bool): map<AgvId, int> {
    if done then map[]
    else map v | v in agvs && IdleVehicle(agvs[v]) :: if v in idleSince then idleSince[v] else tick
  }

  // -- the boundary phase ----------------------------------------------------------------------

  function SetDown(s: State, m: MachineId, down: bool): State
    requires m in s.machines
  {
    if s.machines[m].down == down then s
    else s.(machines := s.machines[m := s.machines[m].(down := down)],
            log := s.log + [if down then Breakdown(s.tick, m) else Repair(s.tick, m)])
  }

  /** Releasing a demand creates and queues its attempt. */
  function ReleaseDemand(c: Scenario, s: State, d: DemandId): State
    requires d in c.demands
  {
    if c.demands[d].releaseAt <= s.tick && d !in s.ledger.released then
      var l := s.ledger;
      var n := (if d in l.attempts then l.attempts[d] else 0) + 1;
      var j := Job(d, n);
      s.(ledger := l.(released := l.released + {d}, attempts := l.attempts[d := n]),
         jobs := s.jobs[j := JobRow(0, Queued, s.tick, Unknown, false, false)],
         queue := s.queue + [j],
         log := s.log + [AttemptQueued(s.tick, j), DemandReleased(s.tick, d)])
    else s
  }

  /** Moves a queued job into its Input, leaving `queue`. */
  function AdmitJob(s: State, j: JobId, p: Place, queue: seq<JobId>): State
    requires j in s.jobs && p in s.storage
  {
    s.(queue := queue,
       storage := s.storage[p := s.storage[p] + [j]],
       jobs := s.jobs[j := s.jobs[j].(loc := Stored(p), since := s.tick)],
       log := s.log + [InputAdmitted(s.tick, j, p)])
  }

  /** Lets a finished operation leave its machine: retained for the next operation of the same
      machine, released into POST, or still blocked. */
  function Unblock(c: Scenario, s: State, m: MachineId): State
    requires WellFormed(c) && Inv(c, s) && m in c.machines
  {
    assert MachineOk(c, s.jobs, m, s.machines[m]) && GoodMachine(c, m);
    var row := s.machines[m];
    if !row.status.Blocked? then s
    else
      var j := row.job.value;
      if Capable(c, j, s.jobs[j].step, m) then
        s.(machines := s.machines[m := row.(status := Ready)], log := s.log + [Retained(s.tick, m, j)])
      else
        match Free(c, s, c.post[m])
        case None => s
        case Some(k) => ReleaseJob(s, m, j, Place(c.post[m], k))
  }

  function ReleaseJob(s: State, m: MachineId, j: JobId, p: Place): State
    requires m in s.machines && j in s.jobs && p in s.storage
  {
    s.(machines := s.machines[m := s.machines[m].(job := None, status := Idle, remaining := 0, mode := None)],
       storage := s.storage[p := s.storage[p] + [j]],
       jobs := s.jobs[j := s.jobs[j].(loc := Stored(p), since := s.tick)],
       log := s.log + [MachineReleased(s.tick, j, m, p)])
  }

  // -- processing ------------------------------------------------------------------------------

  /** Half-up rounding to at least one tick. */
  function Rounded(x: real): int {
    Max(1, (x + 0.5).Floor)
  }

  function Ceil(x: real): int {
    -((-x).Floor)
  }

  /** The drawn processing multiplier. */
  function Multiplier(low: real, high: real, draw: real): real {
    low + (high - low) * draw
  }

  function Portion(work: real, factor: real): real {
    work * factor
  }

  /** Ticks before rounding. */
  function Exact(amount: real, timeScale: real, rate: real): real
    requires rate > 0.0
  {
    amount * (timeScale / rate)
  }

  /** (actual, nominal) ticks for the drawn share of the work, or for the sample instead, and for the work. */
  function Spans(upwards: bool, work: real, factor: real, sample: Option<nat>, timeScale: real, rate: real): (r: (int, int))
    requires rate > 0.0
    ensures r.0 >= 1 && r.1 >= 1
  {
    var base := if sample.Some? then sample.value else Rounded(Portion(work, factor));
    if upwards then
      (Max(1, Ceil(Exact(if sample.Some? then base as real else Portion(work, factor), timeScale, rate))), Max(1, Ceil(Exact(work, timeScale, rate))))
    else
      (Rounded(Exact(base as real, timeScale, rate)), Rounded(Exact(work, timeScale, rate)))
  }

  /** (actual, nominal) duration of the job's next operation. */
  function Duration(c: Scenario, j: JobId, step: nat, m: MachineId, mode: ModeId): (r: (int, int))
    requires WellFormed(c) && Capable(c, j, step, m) && mode in c.machines[m].modes
    ensures r.0 >= 1 && r.1 >= 1
  {
    assert GoodMachine(c, m);
    var op := c.demands[j.demand].steps[step];
    Spans(c.ceilRounding, if m in op.overrides then op.overrides[m] else op.ticks, Multiplier(c.low, c.high, c.processingDraw(j, step)),
          if (j, step, m) in c.samples then Some(c.samples[(j, step, m)]) else None, c.machines[m].modes[mode].timeScale, c.machines[m].rate)
  }

  /** `machine_choices` as a predicate. */
  predicate Startable(c: Scenario, s: State, m: MachineId, j: JobId, mode: ModeId)
    requires WellFormed(c) && Shaped(c, s)
  {
    && m in c.machines && j in s.jobs && m in c.pre
    && !s.machines[m].down && (s.machines[m].status.Idle? || s.machines[m].status.Ready?)
    && (match s.machines[m].job
        case Some(i) => i == j
        case None => s.jobs[j].loc.Stored? && s.jobs[j].loc.place in s.storage && s.jobs[j].loc.place.owner == c.pre[m])
    && s.jobs[j].quality != Failed
    && Capable(c, j, s.jobs[j].step, m) && mode in c.machines[m].modes
  }

  /** `_start` */
  function Start(c: Scenario, s: State, m: MachineId, j: JobId, mode: ModeId): State
    requires WellFormed(c) && Shaped(c, s) && Startable(c, s, m, j, mode)
  {
    var (actual, nominal) := Duration(c, j, s.jobs[j].step, m, mode);
    var p := s.jobs[j].loc;
    s.(storage := if s.machines[m].job.Some? then s.storage
                  else s.storage[p.place := Without(s.storage[p.place], j)],
       jobs := s.jobs[j := s.jobs[j].(loc := AtMachine(m), since := s.tick)],
       machines := s.machines[m := s.machines[m].(job := Some(j), status := Processing, remaining := actual,
                                                  elapsed := 0, nominal := nominal, mode := Some(mode))],
       log := s.log + [ProcessingStarted(s.tick, m, j, mode, nominal, actual)])
  }

  /** One machine's share of an interval of `k` ticks. */
  function Work(c: Scenario, s: State, m: MachineId, k: int): State
    requires WellFormed(c) && Inv(c, s) && m in c.machines
  {
    var row := s.machines[m];
    if !row.status.Processing? || row.down then s
    else if row.remaining != k then
      s.(machines := s.machines[m := row.(remaining := row.remaining - k, elapsed := row.elapsed + k)])
    else
      Finish(c, s, m, k)
  }

  function Finish(c: Scenario, s: State, m: MachineId, k: int): State
    requires WellFormed(c) && Inv(c, s) && m in c.machines && s.machines[m].status.Processing?
  {
    assert MachineOk(c, s.jobs, m, s.machines[m]);
    var row := s.machines[m];
    var j := row.job.value;
    var r := s.jobs[j];
    var defect := c.qualityDraw(j, r.step) < c.machines[m].modes[row.mode.value].errorRate;
    s.(machines := s.machines[m := row.(remaining := 0, elapsed := row.elapsed + k, status := Blocked)],
       jobs := s.jobs[j := r.(defective := r.defective || defect, quality := Unknown, step := r.step + 1)],
       log := s.log + [ProcessingCompleted(s.tick, j, m, r.step, row.elapsed + k)])
  }

  // -- vehicles and services -------------------------------------------------------------------

  /** `cancel`: drops the assignment, then the target and service if there is a target. */
  function Cancel(c: Scenario, s: State, v: AgvId): State
    requires v in s.agvs
  {
    var a := s.agvs[v];
    var t := s.(assignments := s.assignments - {v});
    if a.target.None? then t
    else
      SyncIdle(c, t.(agvs := t.agvs[v := a.(target := None, service := None)],
                     log := t.log + [ReservationCancelled(t.tick, v, a.target.value)]
                       + (if a.service.Some? then [ServiceInterrupted(t.tick, v, a.service.value)] else [])))
  }

  function Accept(c: Scenario, s: State, v: AgvId, b: BufferId): State
    requires v in s.agvs
  {
    SyncIdle(c, s.(agvs := s.agvs[v := s.agvs[v].(target := Some(b), arrivedAt := s.tick)],
                   log := s.log + [ReservationAccepted(s.tick, v, b)]))
  }

  /** `start_service` */
  function Serve(s: State, v: AgvId, kind: Kind, j: JobId, p: Place): State
    requires v in s.agvs
  {
    s.(agvs := s.agvs[v := s.agvs[v].(service := Some(Service(kind, j, p, s.tick, 1)))],
       log := s.log + [ServiceStarted(s.tick, kind, v, j, p)])
  }

  /** `_transfer` of a pickup, with the bookkeeping of its completed service. */
  function PickUp(s: State, v: AgvId, j: JobId, p: Place): State
    requires v in s.agvs && j in s.jobs && p in s.storage
  {
    s.(storage := s.storage[p := Without(s.storage[p], j)],
       jobs := s.jobs[j := s.jobs[j].(loc := OnAgv(v), since := s.tick)],
       agvs := s.agvs[v := s.agvs[v].(job := Some(j), service := None, target := None)],
       log := s.log + [Transferred(s.tick, Pickup, v, j, p), ServiceCompleted(s.tick, Pickup, v, j)])
  }

  /** `_transfer` of a delivery, with the bookkeeping of its completed service. */
  function Unload(s: State, v: AgvId, j: JobId, p: Place): State
    requires v in s.agvs && j in s.jobs && p in s.storage
  {
    s.(storage := s.storage[p := s.storage[p] + [j]],
       jobs := s.jobs[j := s.jobs[j].(loc := Stored(p), since := s.tick)],
       agvs := s.agvs[v := s.agvs[v].(job := None, service := None, target := None)],
       log := s.log + [Transferred(s.tick, DropOff, v, j, p), ServiceCompleted(s.tick, DropOff, v, j)])
  }

  /** A delivery into an Output ships the demand and reveals its quality first. */
  function Ship(s: State, j: JobId): State
    requires j in s.jobs
  {
    var row := s.jobs[j];
    var quality := if row.defective then Failed else Passed;
    var first := row.defective && !row.confirmed;
    var l := s.ledger;
    s.(ledger := l.(shipped := l.shipped + {j.demand}, shipmentTimes := l.shipmentTimes[j.demand := s.tick],
                    good := if row.defective then l.good else l.good + {j.demand}),
       jobs := s.jobs[j := row.(quality := quality, confirmed := row.confirmed || first)],
       log := s.log + [QualityRevealed(s.tick, j, quality, first)])
  }

  function Deliver(c: Scenario, s: State, v: AgvId, j: JobId, p: Place): State
    requires v in s.agvs && j in s.jobs && p in s.storage && p.owner in c.buffers
  {
    Unload(if c.buffers[p.owner].role.Output? then Ship(s, j) else s, v, j, p)
  }

  /** One tick of one vehicle's service. */
  function Complete(c: Scenario, s: State, v: AgvId): State
    requires WellFormed(c) && Inv(c, s) && v in s.agvs
  {
    assert VehicleOk(c, s.jobs, s.agvs[v]);
    match s.agvs[v].service
    case None => s
    case Some(x) =>
      assert KnownPlace(c, x.place);
      if x.kind.Pickup? then PickUp(s, v, x.job, x.place) else Deliver(c, s, v, x.job, x.place)
  }

  // -- the centralized controller --------------------------------------------------------------

  /** Availability of an owner as a reservation target. */
  predicate Eligible(c: Scenario, s: State, b: BufferId)
    requires WellFormed(c) && Shaped(c, s) && b in c.buffers
  {
    match c.buffers[b].role
    case Pre(m) => m in s.machines && !s.machines[m].down
    case Post(m) => m in s.machines && (!s.machines[m].down || exists j :: j in s.jobs && s.jobs[j].loc.Stored? && s.jobs[j].loc.place.owner == b)
    case _ => true
  }

  function Aim(s: State, v: AgvId, b: BufferId): State
    requires v in s.agvs
  {
    s.(agvs := s.agvs[v := s.agvs[v].(target := Some(b), arrivedAt := s.tick)])
  }

  /** One assignment of `reconcile`. */
  function Reconcile(c: Scenario, s: State, v: AgvId): State
    requires WellFormed(c) && Inv(c, s) && v in s.agvs
  {
    if v !in s.assignments then s
    else
      assert AssignmentOk(c, s.jobs, s.agvs[v], s.assignments[v]);
      var x, a := s.assignments[v], s.agvs[v];
      if !Eligible(c, s, x.destination) then Cancel(c, s, v)
      else if a.job == Some(x.job) && a.target.None? then Aim(s, v, x.destination)
      else if a.job.None? && s.jobs[x.job].loc.Stored? && s.jobs[x.job].loc.place.owner == x.destination
      then s.(assignments := s.assignments - {v})
      else s
  }

  /** Every assigned vehicle has somewhere to go. */
  ghost predicate Aimed(agvs: map<AgvId, AgvRow>, tasks: map<AgvId, Assignment>) {
    forall v {:trigger HeadsOut(agvs, v)} :: v in tasks ==> HeadsOut(agvs, v)
  }

  lemma AimedMeans(agvs: map<AgvId, AgvRow>, tasks: map<AgvId, Assignment>)
    ensures Aimed(agvs, tasks) <==> forall v :: v in tasks ==> v in agvs && agvs[v].target.Some?
  {
    if Aimed(agvs, tasks) {
      forall v | v in tasks ensures v in agvs && agvs[v].target.Some? { assert HeadsOut(agvs, v); }
    }
  }

  ghost predicate HeadsOut(agvs: map<AgvId, AgvRow>, v: AgvId) {
    v in agvs && agvs[v].target.Some?
  }

  /** `choose` on a transport task. */
  function Assign(c: Scenario, s: State, v: AgvId, j: JobId, b: BufferId): State
    requires v in s.agvs && j in s.jobs && (s.agvs[v].job.None? ==> s.jobs[j].loc.Stored?)
  {
    var goal := if s.agvs[v].job.Some? then b else s.jobs[j].loc.place.owner;
    var t := Aim(s.(assignments := s.assignments[v := Assignment(j, b)]), v, goal);
    t.(log := t.log + [TaskAssigned(t.tick, v, j, b)])
  }
}
