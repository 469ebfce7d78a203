/** The physical step: simultaneous moves, services, processing and the boundary phase. */
module Physics {
  import opened Collections
  import opened Availability
  import opened Factory
  import opened Custody
  import opened Safety
  import opened Operations
  import opened Preservation
  import opened Settling
  import opened Deliveries
  import opened Reservations
  import opened CentralSafety

  // -- the boundary phase ----------------------------------------------------------------------

  /** Sets the down flags of the first `n` machines; `scan` selects the lookup used before the
      protocol exists. */
  function Flags(c: Scenario, s: State, n: nat, scan: bool): (t: State)
    requires WellFormed(c) && Inv(c, s) && n <= |c.machineIds|
    ensures Inv(c, t) && OnlyFlags(s, t)
    ensures ScanAgrees(c, s.tick, scan) ==> Flagged(c, t.machines, s.tick, n)
    ensures FlagsCurrent(c, s) && !scan ==> t == s
  {
    if n == 0 then s
    else
      var u := Flags(c, s, n - 1, scan);
      var m := c.machineIds[n - 1];
      assert m in SetOf(c.machineIds);
      var down := if scan then Covered(c.outages, m, u.tick) else DownAt(c.outages, m, u.tick);
      SetDownKeeps(c, u, m, down);
      assert FlagsCurrent(c, s) ==> FlagCurrent(c, s.machines, m, s.tick);
      OnlyFlagsStep(s, u, m, down);
      assert ScanAgrees(c, s.tick, scan) ==> Flagged(c, SetDown(u, m, down).machines, s.tick, n) by {
        if ScanAgrees(c, s.tick, scan) { FlagStep(c, u.machines, s.tick, n, m); }
      }
      SetDown(u, m, down)
  }

  function Releases(c: Scenario, s: State, n: nat): (t: State)
    requires WellFormed(c) && Inv(c, s) && n <= |c.demandIds|
    ensures Inv(c, t) && ReleasedTo(c, s, t, n)
  {
    if n == 0 then s
    else
      var u := Releases(c, s, n - 1);
      assert c.demandIds[n - 1] in SetOf(c.demandIds);
      ReleaseKeeps(c, u, c.demandIds[n - 1]);
      ReleaseStep(c, s, u, n, c.demandIds[n - 1]);
      ReleaseDemand(c, u, c.demandIds[n - 1])
  }

  /** FIFO admission: `kept` stays queued, `rest` is still to be examined, `full` are the Inputs
      that already had to refuse a job. */
  function Admit(c: Scenario, s: State, kept: seq<JobId>, rest: seq<JobId>, full: set<BufferId>): (t: State)
    requires WellFormed(c) && Inv(c, s) && s.queue == kept + rest
    requires AllStuck(c, s.storage, kept) && forall b :: b in full ==> Crammed(c, s.storage, b)
    ensures Inv(c, t) && Admitted(s, t) && AllStuck(c, t.storage, t.queue)
    ensures AllStuck(c, s.storage, s.queue) ==> t == s
    decreases |rest|
  {
    if rest == [] then
      assert kept + rest == kept;
      s
    else
      var j := rest[0];
      QueuedJob(c, s, kept, rest);
      var b := c.demands[j.demand].input;
      var k := Free(c, s, b);
      assert AllStuck(c, s.storage, s.queue) ==> QueueStuck(c, s.storage, j);
      if k.None? || b in full then
        assert s.queue == (kept + [j]) + rest[1..];
        AllStuckAppend(c, s.storage, kept, j);
        Admit(c, s, kept + [j], rest[1..], full + {b})
      else
        var p := Place(b, k.value);
        AdmitKeeps(c, s, j, p, kept + rest[1..]);
        AdmitFrame(s, j, p, kept + rest[1..]);
        StillFull(c, s, AdmitJob(s, j, p, kept + rest[1..]), kept, full);
        Admit(c, AdmitJob(s, j, p, kept + rest[1..]), kept, rest[1..], full)
  }

  lemma StillFull(c: Scenario, s: State, t: State, kept: seq<JobId>, full: set<BufferId>)
    requires AllStuck(c, s.storage, kept) && (forall b :: b in full ==> Crammed(c, s.storage, b)) && Grows(s.storage, t.storage)
    ensures AllStuck(c, t.storage, kept) && forall b :: b in full ==> Crammed(c, t.storage, b)
  {
    AllStuckStays(c, s.storage, t.storage, kept);
    forall b | b in full ensures Crammed(c, t.storage, b) { CrammedStays(c, s.storage, t.storage, b); }
  }

  function AdmitAll(c: Scenario, s: State): (t: State)
    requires WellFormed(c) && Inv(c, s)
    ensures Inv(c, t) && Admitted(s, t) && AllStuck(c, t.storage, t.queue)
    ensures AllStuck(c, s.storage, s.queue) ==> t == s
  {
    assert s.queue == [] + s.queue;
    Admit(c, s, [], s.queue, {})
  }

  lemma QueuedJob(c: Scenario, s: State, kept: seq<JobId>, rest: seq<JobId>)
    requires WellFormed(c) && Inv(c, s) && s.queue == kept + rest && rest != []
    ensures var j := rest[0];
            && j in s.jobs && s.jobs[j].loc.Queued? && j.demand in c.demands && GoodDemand(c, j.demand)
            && NoDup(kept + rest[1..]) && j !in kept + rest[1..]
            && forall i :: i in s.queue <==> i in kept + rest[1..] || i == j
  {
    var j := rest[0];
    assert j in s.queue by { assert s.queue[|kept|] == j; }
    assert Names(s.jobs, j, Queued);
    assert KnownJob(c, j) && GoodDemand(c, j.demand);
    QueueWithout(s.queue, kept, rest);
  }

  lemma QueueWithout(q: seq<JobId>, kept: seq<JobId>, rest: seq<JobId>)
    requires NoDup(q) && q == kept + rest && rest != []
    ensures NoDup(kept + rest[1..]) && rest[0] !in kept + rest[1..]
    ensures forall i :: i in q <==> i in kept + rest[1..] || i == rest[0]
  {
    var left := kept + rest[1..];
    assert rest == [rest[0]] + rest[1..];
    assert multiset(q) == multiset(left) + multiset{rest[0]};
    assert multiset(q)[rest[0]] <= 1;
    assert forall i :: i in left <==> i in multiset(left);
    assert forall i :: i in q <==> i in multiset(q);
    assert NoDup(left) by {
      forall x ensures multiset(left)[x] <= 1 { assert multiset(q)[x] <= 1; }
    }
  }

  function Unblocks(c: Scenario, s: State, n: nat): (t: State)
    requires WellFormed(c) && Inv(c, s) && n <= |c.machineIds|
    ensures Inv(c, t) && Cleared(c, s, t, n)
    ensures Settled(c, s) ==> t == s
  {
    if n == 0 then s
    else
      var u := Unblocks(c, s, n - 1);
      var m := c.machineIds[n - 1];
      assert m in SetOf(c.machineIds);
      UnblockKeeps(c, u, m);
      UnblockFrame(c, u, m);
      ClearStep(c, s, u, Unblock(c, u, m), n);
      assert Settled(c, s) ==> MachineStuck(c, s.jobs, s.machines, s.storage, m);
      Unblock(c, u, m)
  }

  /** The boundary phase: afterwards no queued job and no blocked machine could go on, and the down
      flags are those of the calendar. */
  function Boundary(c: Scenario, s: State, scan: bool): (t: State)
    requires WellFormed(c) && Inv(c, s)
    ensures Inv(c, t) && Settled(c, t) && SameFleet(s, t)
    ensures ScanAgrees(c, s.tick, scan) ==> FlagsCurrent(c, t)
    ensures NoneEarly(c, s.ledger.released, s.tick) ==> DueReleased(c, t)
    ensures Settled(c, s) && FlagsCurrent(c, s) && DueReleased(c, s) && !scan ==> t == s
  {
    var flagged := Flags(c, s, |c.machineIds|, scan);
    var due := Releases(c, flagged, |c.demandIds|);
    var admitted := AdmitAll(c, due);
    DueIsReleased(c, due, Unblocks(c, admitted, |c.machineIds|));
    BoundarySettles(c, s, flagged, admitted, Unblocks(c, admitted, |c.machineIds|));
    Unblocks(c, admitted, |c.machineIds|)
  }

  lemma DueIsReleased(c: Scenario, due: State, t: State)
    requires SetOf(c.demandIds) == c.demands.Keys && DueAmong(c, due.ledger.released, due.tick, |c.demandIds|)
    requires t.ledger == due.ledger && t.tick == due.tick
    ensures NoneEarly(c, due.ledger.released, due.tick) ==> DueReleased(c, t)
  {
    if NoneEarly(c, due.ledger.released, due.tick) {
      forall d | d in c.demands ensures DueFlag(c, t.ledger.released, t.tick, d) {
        assert d in SetOf(c.demandIds);
        var i :| 0 <= i < |c.demandIds| && c.demandIds[i] == d;
        if d in due.ledger.released { assert NotEarly(c, due.tick, d); }
      }
    }
  }

  /** The boundary leaves vehicles, assignments and clocks alone. */
  ghost predicate SameFleet(s: State, t: State) {
    && t.tick == s.tick && t.agvs == s.agvs && t.assignments == s.assignments && t.idleSince == s.idleSince
    && t.machines.Keys == s.machines.Keys && SameShipments(s.ledger, t.ledger)
  }

  lemma BoundarySettles(c: Scenario, s: State, flagged: State, admitted: State, t: State)
    requires SetOf(c.machineIds) == c.machines.Keys == s.machines.Keys
    requires OnlyFlags(s, flagged) && SameMachines(flagged, admitted)
    requires AllStuck(c, admitted.storage, admitted.queue) && Cleared(c, admitted, t, |c.machineIds|)
    ensures Settled(c, t) && SameFleet(s, t)
    ensures Flagged(c, flagged.machines, s.tick, |c.machineIds|) ==> FlagsCurrent(c, t)
  {
    AllStuckStays(c, admitted.storage, t.storage, t.queue);
    forall m | m in t.machines ensures MachineStuck(c, t.jobs, t.machines, t.storage, m) {
      var i :| 0 <= i < |c.machineIds| && c.machineIds[i] == m;
    }
    if Flagged(c, flagged.machines, s.tick, |c.machineIds|) {
      forall m | m in t.machines ensures FlagCurrent(c, t.machines, m, t.tick) {
        var i :| 0 <= i < |c.machineIds| && c.machineIds[i] == m;
        assert FlagCurrent(c, flagged.machines, c.machineIds[i], s.tick);
      }
    }
  }

  ghost predicate SameMachines(s: State, t: State) {
    && t.machines == s.machines && t.tick == s.tick
    && t.agvs == s.agvs && t.assignments == s.assignments && t.idleSince == s.idleSince
    && SameShipments(s.ledger, t.ledger)
  }

  // -- whose turn it is ------------------------------------------------------------------------

  /** The list with every vehicle that was given a task moved to the end, task after task. */
  function Reordered(ids: seq<AgvId>, log: seq<Event>): (q: seq<AgvId>)
    ensures multiset(q) == multiset(ids)
  {
    if log == [] then ids
    else
      var q, e := Reordered(ids, log[..|log| - 1]), log[|log| - 1];
      if e.TaskAssigned? && e.agv in q then
        assert multiset(q) == multiset(Without(q, e.agv)) + multiset{e.agv};
        Without(q, e.agv) + [e.agv]
      else q
  }

  /** Every vehicle once. */
  ghost predicate InTurn(c: Scenario, q: seq<AgvId>) {
    NoDup(q) && SetOf(q) == SetOf(c.agvIds) && |q| == |c.agvIds|
  }

  /** `assignments` is a dictionary and is walked in the order in which its tasks were entered. Every
      task is entered with an event, so the log tells the order. */
  function Turns(c: Scenario, log: seq<Event>): (q: seq<AgvId>)
    ensures NoDup(c.agvIds) ==> InTurn(c, q)
  {
    var q := Reordered(c.agvIds, log);
    SameMembers(c.agvIds, q);
    q
  }

  // -- services --------------------------------------------------------------------------------

  function Station(c: Scenario, b: BufferId): Option<MachineId>
    requires b in c.buffers
  {
    match c.buffers[b].role
    case Pre(m) => Some(m)
    case Post(m) => Some(m)
    case _ => None
  }

  /** The owner's machine is unavailable now. */
  predicate DownOwner(c: Scenario, tick: int, b: BufferId) {
    b in c.buffers && Station(c, b).Some? && DownAt(c.outages, Station(c, b).value, tick)
  }

  /** Services touch neither machines nor the clock. */
  ghost predicate SameShop(s: State, t: State) {
    t.machines == s.machines && t.tick == s.tick && t.ledger.released == s.ledger.released
  }

  lemma CancelFrame(c: Scenario, s: State, v: AgvId)
    requires v in s.agvs
    ensures SameShop(s, Cancel(c, s, v)) && Cancel(c, s, v).ledger == s.ledger
  {
  }

  lemma DeliverFrame(c: Scenario, s: State, v: AgvId, j: JobId, p: Place)
    requires v in s.agvs && j in s.jobs && p in s.storage && p.owner in c.buffers
    ensures SameShop(s, Deliver(c, s, v, j, p)) && SameShop(s, PickUp(s, v, j, p))
  {
  }

  lemma CompleteFrame(c: Scenario, s: State, v: AgvId)
    requires WellFormed(c) && Inv(c, s) && v in s.agvs
    ensures SameShop(s, Complete(c, s, v))
  {
    assert VehicleOk(c, s.jobs, s.agvs[v]);
    if s.agvs[v].service.Some? {
      var x := s.agvs[v].service.value;
      assert KnownPlace(c, x.place);
      DeliverFrame(c, s, v, x.job, x.place);
    }
  }

  /** The assignment, if any, has a target and its destination is available. */
  ghost predicate Firm(c: Scenario, s: State, v: AgvId)
    requires WellFormed(c) && Shaped(c, s)
  {
    v in s.assignments ==>
      && v in s.agvs && s.agvs[v].target.Some?
      && s.assignments[v].destination in c.buffers && Eligible(c, s, s.assignments[v].destination)
  }

  /** Only one vehicle and its assignment are touched. */
  ghost predicate Touched(s: State, t: State, v: AgvId) {
    && t == s.(agvs := t.agvs, assignments := t.assignments, idleSince := t.idleSince, log := t.log)
    && v in s.agvs && v in t.agvs && t.agvs == s.agvs[v := t.agvs[v]] && t.idleSince.Keys <= s.agvs.Keys + s.idleSince.Keys
    && (forall w :: w in t.assignments ==> w in s.assignments && t.assignments[w] == s.assignments[w])
  }

  /** While the run is on, the start of every running idle period is known. */
  ghost predicate ClocksKnown(c: Scenario, s: State) {
    !Done(c, s) ==> forall v {:trigger Clocked(s.agvs, s.idleSince, v)} :: v in s.agvs ==> Clocked(s.agvs, s.idleSince, v)
  }

  ghost predicate Clocked(agvs: Agvs, idleSince: map<AgvId, int>, v: AgvId)
    requires v in agvs
  {
    IdleVehicle(agvs[v]) ==> v in idleSince
  }

  /** Only vehicles, assignments, idle clocks and the log change. */
  ghost predicate OnlyFleet(s: State, t: State) {
    t == s.(agvs := t.agvs, assignments := t.assignments, idleSince := t.idleSince, log := t.log)
  }

  /** Synchronized clocks are known, and stay known when `v` stops being idle or its clock runs. */
  lemma ClocksStay(c: Scenario, s: State, t: State, v: AgvId)
    requires ClocksKnown(c, s) && Done(c, t) == Done(c, s) && t.idleSince == s.idleSince
    requires v in t.agvs && v in s.agvs && t.agvs == s.agvs[v := t.agvs[v]]
    requires IdleVehicle(t.agvs[v]) ==> IdleVehicle(s.agvs[v])
    ensures ClocksKnown(c, t)
  {
    if !Done(c, t) {
      forall w | w in t.agvs ensures Clocked(t.agvs, t.idleSince, w) { assert Clocked(s.agvs, s.idleSince, w); }
    }
  }

  lemma SyncClocks(c: Scenario, s: State)
    ensures ClocksKnown(c, SyncIdle(c, s))
  {
    var t := SyncIdle(c, s);
    if !Done(c, t) {
      forall w | w in t.agvs ensures Clocked(t.agvs, t.idleSince, w) {}
    }
  }

  lemma CancelClocks(c: Scenario, s: State, v: AgvId)
    requires v in s.agvs && ClocksKnown(c, s)
    ensures ClocksKnown(c, Cancel(c, s, v))
  {
    if s.agvs[v].target.None? {
      assert s.agvs == s.agvs[v := s.agvs[v]];
      ClocksStay(c, s, Cancel(c, s, v), v);
    } else {
      var a := s.agvs[v];
      SyncClocks(c, s.(assignments := s.assignments - {v}, agvs := s.agvs[v := a.(target := None, service := None)],
                       log := s.log + [ReservationCancelled(s.tick, v, a.target.value)]
                         + (if a.service.Some? then [ServiceInterrupted(s.tick, v, a.service.value)] else [])));
    }
  }

  lemma AimClocks(c: Scenario, s: State, v: AgvId, b: BufferId)
    requires v in s.agvs && ClocksKnown(c, s)
    ensures ClocksKnown(c, Aim(s, v, b))
  {
    ClocksStay(c, s, Aim(s, v, b), v);
  }

  lemma ReconcileClocks(c: Scenario, s: State, v: AgvId)
    requires WellFormed(c) && Inv(c, s) && v in s.agvs && ClocksKnown(c, s)
    ensures ClocksKnown(c, Reconcile(c, s, v))
  {
    if v in s.assignments {
      assert AssignmentOk(c, s.jobs, s.agvs[v], s.assignments[v]);
      var x, a := s.assignments[v], s.agvs[v];
      if !Eligible(c, s, x.destination) {
        CancelClocks(c, s, v);
      } else if a.job == Some(x.job) && a.target.None? {
        AimClocks(c, s, v, x.destination);
      } else {
        assert s.agvs == s.agvs[v := s.agvs[v]];
        ClocksStay(c, s, Reconcile(c, s, v), v);
      }
    }
  }

  lemma CancelTouched(c: Scenario, s: State, v: AgvId)
    requires v in s.agvs
    ensures Touched(s, Cancel(c, s, v), v) && v !in Cancel(c, s, v).assignments
  {
    if s.agvs[v].target.None? {
      assert s.agvs == s.agvs[v := s.agvs[v]];
    } else {
      CancelledFields(c, s, v);
    }
  }

  lemma CancelledFields(c: Scenario, s: State, v: AgvId)
    requires v in s.agvs && s.agvs[v].target.Some?
    ensures var t := Cancel(c, s, v);
            && t == s.(agvs := t.agvs, assignments := t.assignments, idleSince := t.idleSince, log := t.log)
            && t.agvs == s.agvs[v := s.agvs[v].(target := None, service := None)] && t.assignments == s.assignments - {v}
            && t.idleSince.Keys <= s.agvs.Keys + s.idleSince.Keys
  {
  }

  lemma AimTouched(s: State, v: AgvId, b: BufferId)
    requires v in s.agvs
    ensures Touched(s, Aim(s, v, b), v) && SameShop(s, Aim(s, v, b))
    ensures Aim(s, v, b).assignments == s.assignments && Aim(s, v, b).agvs[v].target == Some(b)
  {
  }

  lemma DropTouched(s: State, v: AgvId)
    requires v in s.agvs
    ensures Touched(s, s.(assignments := s.assignments - {v}), v)
  {
    assert s.agvs == s.agvs[v := s.agvs[v]];
  }

  lemma TouchedShape(c: Scenario, s: State, t: State, v: AgvId)
    requires WellFormed(c) && Shaped(c, s) && Touched(s, t, v)
    ensures Shaped(c, t) && SameShop(s, t)
    ensures forall b :: b in c.buffers ==> Eligible(c, t, b) == Eligible(c, s, b)
  {
  }

  lemma ReconcileFrame(c: Scenario, s: State, v: AgvId)
    requires WellFormed(c) && Inv(c, s) && v in s.agvs
    ensures SameShop(s, Reconcile(c, s, v)) && Touched(s, Reconcile(c, s, v), v)
    ensures Shaped(c, Reconcile(c, s, v)) && Firm(c, Reconcile(c, s, v), v)
  {
    var t := Reconcile(c, s, v);
    if v !in s.assignments {
      assert s.assignments - {v} == s.assignments;
      DropTouched(s, v);
    } else {
      assert AssignmentOk(c, s.jobs, s.agvs[v], s.assignments[v]);
      var x, a := s.assignments[v], s.agvs[v];
      if !Eligible(c, s, x.destination) {
        CancelTouched(c, s, v);
      } else if a.job == Some(x.job) && a.target.None? {
        AimTouched(s, v, x.destination);
      } else if a.job.None? && s.jobs[x.job].loc.Stored? && s.jobs[x.job].loc.place.owner == x.destination {
        DropTouched(s, v);
      } else {
        assert s.agvs == s.agvs[v := s.agvs[v]];
      }
    }
    TouchedShape(c, s, t, v);
  }

  ghost predicate AllFirm(c: Scenario, s: State)
    requires WellFormed(c) && Shaped(c, s)
  {
    FirmAmong(c, c.agvIds, s, |c.agvIds|)
  }

  /** The first `n` vehicles of the list have firm assignments. */
  ghost predicate FirmAmong(c: Scenario, q: seq<AgvId>, s: State, n: nat)
    requires WellFormed(c) && Shaped(c, s)
  {
    forall i {:trigger q[i]} :: 0 <= i < n <= |q| ==> Firm(c, s, q[i])
  }

  lemma FirmStep(c: Scenario, q: seq<AgvId>, u: State, t: State, n: nat)
    requires WellFormed(c) && Shaped(c, u) && Shaped(c, t) && InTurn(c, q) && 0 < n <= |q|
    requires Touched(u, t, q[n - 1]) && Firm(c, t, q[n - 1]) && FirmAmong(c, q, u, n - 1)
    ensures FirmAmong(c, q, t, n)
  {
    forall i | 0 <= i < n ensures Firm(c, t, q[i]) {
      if i < n - 1 {
        NoDupIndex(q, i, n - 1);
        assert Firm(c, u, q[i]);
      }
    }
  }

  lemma FirmInAnyOrder(c: Scenario, q: seq<AgvId>, s: State)
    requires WellFormed(c) && Shaped(c, s) && InTurn(c, q) && FirmAmong(c, q, s, |q|)
    ensures AllFirm(c, s)
  {
    forall i | 0 <= i < |c.agvIds| ensures Firm(c, s, c.agvIds[i]) {
      assert c.agvIds[i] in SetOf(c.agvIds) && c.agvIds[i] in SetOf(q);
      var k :| 0 <= k < |q| && q[k] == c.agvIds[i];
    }
  }

  ghost predicate NoServices(agvs: Agvs) {
    forall v :: v in agvs ==> agvs[v].service.None?
  }

  /** No assignment leads to a station that is unavailable now. */
  ghost predicate NoneDown(c: Scenario, s: State) {
    forall v :: v in s.assignments ==> !DownOwner(c, s.tick, s.assignments[v].destination)
  }

  // `before_services` reads and changes only the vehicle side of the state.
  datatype Fleet = Fleet(agvs: Agvs, assignments: map<AgvId, Assignment>, idleSince: map<AgvId, int>, log: seq<Event>)

  function FleetOf(s: State): Fleet {
    Fleet(s.agvs, s.assignments, s.idleSince, s.log)
  }

  function WithFleet(s: State, f: Fleet): State {
    s.(agvs := f.agvs, assignments := f.assignments, idleSince := f.idleSince, log := f.log)
  }

  function FleetCancel(f: Fleet, tick: int, done: bool, v: AgvId): Fleet
    requires v in f.agvs
  {
    var a, left := f.agvs[v], f.assignments - {v};
    if a.target.None? then f.(assignments := left)
    else
      var agvs := f.agvs[v := a.(target := None, service := None)];
      Fleet(agvs, left, RunningClocks(agvs, f.idleSince, tick, done),
            f.log + [ReservationCancelled(tick, v, a.target.value)]
              + if a.service.Some? then [ServiceInterrupted(tick, v, a.service.value)] else [])
  }

  lemma CancelFleet(c: Scenario, s: State, v: AgvId)
    requires v in s.agvs
    ensures Cancel(c, s, v) == WithFleet(s, FleetCancel(FleetOf(s), s.tick, Done(c, s), v))
  {
  }

  ghost predicate VehiclesListed(q: seq<AgvId>, agvs: Agvs) {
    forall v :: v in q ==> v in agvs
  }

  function FleetWithdraw(c: Scenario, q: seq<AgvId>, f: Fleet, tick: int, done: bool, n: nat): (g: Fleet)
    requires n <= |q| && VehiclesListed(q, f.agvs)
    ensures g.agvs.Keys == f.agvs.Keys
  {
    if n == 0 then f
    else
      FleetStep(c, FleetWithdraw(c, q, f, tick, done, n - 1), tick, done, q[n - 1])
  }

  function FleetTurns(c: Scenario, f: Fleet, tick: int, done: bool): Fleet
    requires VehiclesListed(Turns(c, f.log), f.agvs)
  {
    FleetWithdraw(c, Turns(c, f.log), f, tick, done, |Turns(c, f.log)|)
  }

  function FleetStep(c: Scenario, f: Fleet, tick: int, done: bool, v: AgvId): (g: Fleet)
    requires v in f.agvs
    ensures g.agvs.Keys == f.agvs.Keys
  {
    if v in f.assignments && DownOwner(c, tick, f.assignments[v].destination) then FleetCancel(f, tick, done, v) else f
  }

  function WithdrawOne(c: Scenario, s: State, v: AgvId): State
    requires v in s.agvs
  {
    if v in s.assignments && DownOwner(c, s.tick, s.assignments[v].destination) then Cancel(c, s, v) else s
  }

  /** Assignments to unavailable stations are cancelled, vehicle by vehicle in the order of the list. */
  function Withdraw(c: Scenario, q: seq<AgvId>, s: State, n: nat): (t: State)
    requires WellFormed(c) && Inv(c, s) && InTurn(c, q) && n <= |q|
    ensures Inv(c, t) && OnlyFleet(s, t)
    ensures NoServices(s.agvs) ==> NoServices(t.agvs)
    ensures NoneDown(c, s) ==> t == s
    ensures AllFirm(c, s) ==> AllFirm(c, t)
    ensures VehiclesListed(q, s.agvs) && t == WithFleet(s, FleetWithdraw(c, q, FleetOf(s), s.tick, Done(c, s), n))
  {
    ListVehicles(c, q, s.agvs);
    if n == 0 then s
    else
      var u := Withdraw(c, q, s, n - 1);
      var v := q[n - 1];
      assert v in SetOf(q);
      CancelKeeps(c, u, v);
      WithdrawFrame(c, u, v);
      WithdrawFleet(c, q, s, u, n);
      WithdrawOne(c, u, v)
  }

  lemma WithdrawFirst(c: Scenario, q: seq<AgvId>, s: State)
    requires WellFormed(c) && Inv(c, s) && InTurn(c, q)
    ensures Withdraw(c, q, s, 0) == s
  {
    hide Inv, WellFormed, OnlyFleet, NoServices, NoneDown, AllFirm, FleetWithdraw, InTurn;
  }

  lemma WithdrawNext(c: Scenario, q: seq<AgvId>, s: State, n: nat)
    requires WellFormed(c) && Inv(c, s) && InTurn(c, q) && n < |q|
    ensures var u, v := Withdraw(c, q, s, n), q[n];
            && v in u.agvs
            && Withdraw(c, q, s, n + 1) ==
               if v in u.assignments && DownOwner(c, u.tick, u.assignments[v].destination) then Cancel(c, u, v) else u
  {
    hide OnlyFleet, NoServices, NoneDown, AllFirm, FleetWithdraw, DownOwner, Cancel;
    assert q[n] in SetOf(q);
  }

  lemma ListVehicles(c: Scenario, q: seq<AgvId>, agvs: Agvs)
    requires SetOf(c.agvIds) == agvs.Keys && InTurn(c, q)
    ensures VehiclesListed(q, agvs)
  {
    assert forall v :: v in q ==> v in SetOf(q);
  }

  lemma WithdrawFleet(c: Scenario, q: seq<AgvId>, s: State, u: State, n: nat)
    requires 0 < n <= |q| && VehiclesListed(q, s.agvs)
    requires u == WithFleet(s, FleetWithdraw(c, q, FleetOf(s), s.tick, Done(c, s), n - 1)) && q[n - 1] in u.agvs
    ensures WithdrawOne(c, u, q[n - 1]) == WithFleet(s, FleetWithdraw(c, q, FleetOf(s), s.tick, Done(c, s), n))
  {
    CancelFleet(c, u, q[n - 1]);
  }

  /** `before_services`: the assignments are visited in the order in which they were made. */
  function WithdrawTasks(c: Scenario, s: State): (t: State)
    requires WellFormed(c) && Inv(c, s)
    ensures Inv(c, t) && OnlyFleet(s, t)
    ensures NoServices(s.agvs) ==> NoServices(t.agvs)
    ensures NoneDown(c, s) ==> t == s
    ensures AllFirm(c, s) ==> AllFirm(c, t)
    ensures VehiclesListed(Turns(c, s.log), s.agvs) && t == WithFleet(s, FleetTurns(c, FleetOf(s), s.tick, Done(c, s)))
  {
    Withdraw(c, Turns(c, s.log), s, |Turns(c, s.log)|)
  }

  lemma CancelServices(c: Scenario, s: State, v: AgvId)
    requires v in s.agvs
    ensures NoServices(s.agvs) ==> NoServices(Cancel(c, s, v).agvs)
  {
  }

  lemma WithdrawFrame(c: Scenario, s: State, v: AgvId)
    requires WellFormed(c) && Shaped(c, s) && v in s.agvs
    ensures var t := WithdrawOne(c, s, v);
            && OnlyFleet(s, t) && Shaped(c, t) && (NoServices(s.agvs) ==> NoServices(t.agvs))
            && (AllFirm(c, s) ==> AllFirm(c, t))
  {
    hide Eligible, NoServices;
    var t := WithdrawOne(c, s, v);
    CancelServices(c, s, v);
    if t != s {
      CancelTouched(c, s, v);
      TouchedShape(c, s, t, v);
      if AllFirm(c, s) {
        forall i | 0 <= i < |c.agvIds| ensures Firm(c, t, c.agvIds[i]) { assert Firm(c, s, c.agvIds[i]); }
      }
    }
  }

  /** Unloading into an unavailable station is cancelled. */
  function Interrupt(c: Scenario, s: State, n: nat): (t: State)
    requires WellFormed(c) && Inv(c, s) && n <= |c.agvIds|
    ensures Inv(c, t) && SameShop(s, t) && t.ledger == s.ledger
    ensures NoServices(s.agvs) ==> t == s
  {
    if n == 0 then s
    else
      var u := Interrupt(c, s, n - 1);
      var v := c.agvIds[n - 1];
      assert v in SetOf(c.agvIds);
      CancelKeeps(c, u, v);
      CancelFrame(c, u, v);
      var x := u.agvs[v].service;
      if x.Some? && x.value.kind.DropOff? && DownOwner(c, u.tick, x.value.place.owner) then Cancel(c, u, v) else u
  }

  function Completes(c: Scenario, s: State, n: nat): (t: State)
    requires WellFormed(c) && Inv(c, s) && n <= |c.agvIds|
    ensures Inv(c, t) && SameShop(s, t) && Ships(s.ledger, t.ledger, s.tick)
    ensures NoServices(s.agvs) ==> t == s
  {
    ShipsNothing(s.ledger, s.ledger, s.tick);
    if n == 0 then s
    else
      var u := Completes(c, s, n - 1);
      assert c.agvIds[n - 1] in SetOf(c.agvIds);
      CompleteShips(c, u, c.agvIds[n - 1]);
      ShipsMore(s.ledger, u.ledger, Complete(c, u, c.agvIds[n - 1]).ledger, s.tick);
      CompleteKeeps(c, u, c.agvIds[n - 1]);
      CompleteFrame(c, u, c.agvIds[n - 1]);
      Complete(c, u, c.agvIds[n - 1])
  }

  lemma FirmStays(c: Scenario, s: State, v: AgvId)
    requires WellFormed(c) && Inv(c, s) && v in s.agvs && Firm(c, s, v)
    ensures Reconcile(c, s, v) == s
  {
    if v in s.assignments {
      assert AssignmentOk(c, s.jobs, s.agvs[v], s.assignments[v]);
      assert VehicleOk(c, s.jobs, s.agvs[v]);
    }
  }

  function Reconciles(c: Scenario, q: seq<AgvId>, s: State, n: nat): (t: State)
    requires WellFormed(c) && Inv(c, s) && InTurn(c, q) && n <= |q|
    ensures Inv(c, t) && OnlyFleet(s, t) && FirmAmong(c, q, t, n)
    ensures ClocksKnown(c, s) ==> ClocksKnown(c, t)
    ensures AllFirm(c, s) ==> t == s
  {
    if n == 0 then s
    else
      var u := Reconciles(c, q, s, n - 1);
      var v := q[n - 1];
      assert v in SetOf(q);
      ReconcileKeeps(c, u, v);
      ReconcileFrame(c, u, v);
      FirmStep(c, q, u, Reconcile(c, u, v), n);
      assert ClocksKnown(c, u) ==> ClocksKnown(c, Reconcile(c, u, v)) by {
        if ClocksKnown(c, u) { ReconcileClocks(c, u, v); }
      }
      assert AllFirm(c, u) ==> Reconcile(c, u, v) == u by {
        if AllFirm(c, u) {
          FirmOf(c, u, v);
          FirmStays(c, u, v);
        }
      }
      Reconcile(c, u, v)
  }

  lemma FirmOf(c: Scenario, s: State, v: AgvId)
    requires WellFormed(c) && Shaped(c, s) && AllFirm(c, s) && v in SetOf(c.agvIds)
    ensures Firm(c, s, v)
  {
    var i :| 0 <= i < |c.agvIds| && c.agvIds[i] == v;
    assert Firm(c, s, c.agvIds[i]);
  }

  lemma NothingReconciled(c: Scenario, q: seq<AgvId>, s: State)
    requires WellFormed(c) && Inv(c, s) && InTurn(c, q)
    ensures Reconciles(c, q, s, 0) == s
  {
    hide OnlyFleet, FirmAmong, AllFirm, ClocksKnown, InTurn;
  }

  lemma ReconcilesNext(c: Scenario, q: seq<AgvId>, s: State, n: nat)
    requires WellFormed(c) && Inv(c, s) && InTurn(c, q) && n < |q|
    ensures var u, v := Reconciles(c, q, s, n), q[n]; v in u.agvs && Reconciles(c, q, s, n + 1) == Reconcile(c, u, v)
  {
    hide OnlyFleet, FirmAmong, AllFirm, ClocksKnown, Reconcile;
    assert q[n] in SetOf(q);
  }

  /** `reconcile`: the assignments are visited in the order in which they were made. */
  function ReconcileTasks(c: Scenario, s: State): (t: State)
    requires WellFormed(c) && Inv(c, s)
    ensures Inv(c, t) && OnlyFleet(s, t) && AllFirm(c, t)
    ensures ClocksKnown(c, s) ==> ClocksKnown(c, t)
    ensures AllFirm(c, s) ==> t == s
  {
    var q := Turns(c, s.log);
    FirmInAnyOrder(c, q, Reconciles(c, q, s, |q|));
    Reconciles(c, q, s, |q|)
  }

  lemma FirmIsAimed(c: Scenario, s: State)
    requires WellFormed(c) && Shaped(c, s) && s.assignments.Keys <= s.agvs.Keys && AllFirm(c, s)
    ensures Aimed(s.agvs, s.assignments)
  {
    forall v | v in s.assignments ensures v in s.agvs && s.agvs[v].target.Some? {
      FirmOf(c, s, v);
    }
  }

  lemma SyncFrame(c: Scenario, s: State)
    ensures SameShop(s, SyncIdle(c, s)) && ClocksKnown(c, SyncIdle(c, s))
    ensures SyncIdle(c, s).agvs == s.agvs && SyncIdle(c, s).assignments == s.assignments
  {
    SyncClocks(c, s);
  }

  /** All services of one tick, under either controller, before the idle clocks are synchronized. */
  function Serviced(c: Scenario, s: State): (t: State)
    requires WellFormed(c) && Inv(c, s)
    ensures Inv(c, t) && SameShop(s, t) && Aimed(t.agvs, t.assignments) && Ships(s.ledger, t.ledger, s.tick)
    ensures NoServices(s.agvs) && AllFirm(c, s) ==> t == WithdrawTasks(c, s)
  {
    var n := |c.agvIds|;
    var t := ReconcileTasks(c, Completes(c, Interrupt(c, WithdrawTasks(c, s), n), n));
    FirmIsAimed(c, t);
    t
  }

  /** `complete_services` */
  function CompleteServices(c: Scenario, s: State): (t: State)
    requires WellFormed(c) && Inv(c, s)
    ensures Inv(c, t) && SameShop(s, t) && Aimed(t.agvs, t.assignments) && ClocksKnown(c, t)
    ensures Ships(s.ledger, t.ledger, s.tick)
  {
    var t := Serviced(c, s);
    SyncKeeps(c, t);
    SyncFrame(c, t);
    SyncIdle(c, t)
  }
}
