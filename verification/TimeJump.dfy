/** A jump of `k` quiet ticks against `k` single ticks. */
module TimeJump {
  import opened Collections
  import opened Availability
  import opened Factory
  import opened Custody
  import opened Safety
  import opened Operations
  import opened Settling
  import opened Reservations
  import opened Physics
  import opened Stepping

  ghost predicate AllWait(acts: Actions) {
    forall v :: v in acts ==> acts[v].Wait?
  }

  /** Subdivision: `k` committed intervals of one tick. */
  function Ticks(c: Scenario, s: State, acts: Actions, k: nat): (t: State)
    requires WellFormed(c) && Inv(c, s)
    ensures Inv(c, t) && t.tick == s.tick + k
    decreases k
  {
    if k == 0 then s
    else
      OneTickIsReachable(c, s);
      Ticks(c, Interval(c, s, acts, 1), acts, k - 1)
  }

  // -- waiting moves nothing -------------------------------------------------------------------

  lemma WaitMoves(c: Scenario, s: State, acts: Actions)
    requires AllWait(acts)
    ensures Move(c, s, acts) == s
  {
    var moves := MovesOf(c, s.agvs, acts);
    assert moves == map[];
    NoEvents(c, s, acts, c.agvIds);
    var t := Move(c, s, acts);
    assert t.agvs == s.agvs;
  }

  lemma {:induction false} NoEvents(c: Scenario, s: State, acts: Actions, ids: seq<AgvId>)
    requires AllWait(acts)
    ensures MoveEvents(c, s, acts, ids) == [] && RejectEvents(c, s, acts, ids) == []
  {
    if ids != [] {
      assert MovesOf(c, s.agvs, acts) == map[];
      NoEvents(c, s, acts, ids[1..]);
    }
  }

  // -- machines that run through ---------------------------------------------------------------

  /** One machine row after `k` ticks without a completion. */
  function DriftRow(row: MachineRow, k: int): MachineRow {
    if row.status.Processing? && !row.down then row.(remaining := row.remaining - k, elapsed := row.elapsed + k) else row
  }

  function DriftRows(machines: Machines, k: int): Machines {
    map m | m in machines :: DriftRow(machines[m], k)
  }

  /** Time passes and running machines run. */
  function Drift(s: State, k: int): State {
    s.(tick := s.tick + k, machines := DriftRows(s.machines, k))
  }

  /** Every running machine is still running after `k` ticks. */
  ghost predicate StillRunning(machines: Machines, k: int) {
    forall m :: m in machines && machines[m].status.Processing? && !machines[m].down ==> k < machines[m].remaining
  }

  /** `y` is `x` after the first `n` machines drifted. */
  ghost predicate Drifted(c: Scenario, x: Shop, y: Shop, n: nat, k: int) {
    && y == x.(machines := y.machines) && y.machines.Keys == x.machines.Keys
    && forall i {:trigger c.machineIds[i]} :: 0 <= i < |c.machineIds| && c.machineIds[i] in x.machines ==>
         y.machines[c.machineIds[i]] == if i < n then DriftRow(x.machines[c.machineIds[i]], k) else x.machines[c.machineIds[i]]
  }

  lemma {:induction false} WorksDrift(c: Scenario, tick: int, x: Shop, n: nat, k: int)
    requires Workable(c, x) && n <= |c.machineIds| && (forall m :: m in c.machineIds ==> m in x.machines)
    requires NoDup(c.machineIds) && StillRunning(x.machines, k)
    ensures Drifted(c, x, ShopWorks(c, tick, x, n, k), n, k)
  {
    if n > 0 {
      WorksDrift(c, tick, x, n - 1, k);
      DriftStep(c, tick, x, ShopWorks(c, tick, x, n - 1, k), n, k);
    }
  }

  lemma DriftStep(c: Scenario, tick: int, x: Shop, y: Shop, n: nat, k: int)
    requires NoDup(c.machineIds) && 0 < n <= |c.machineIds| && StillRunning(x.machines, k)
    requires Drifted(c, x, y, n - 1, k) && c.machineIds[n - 1] in y.machines && WorkableRow(c, y, c.machineIds[n - 1])
    ensures Drifted(c, x, ShopWork(c, tick, y, c.machineIds[n - 1], k), n, k)
  {
    var m := c.machineIds[n - 1];
    var z := ShopWork(c, tick, y, m, k);
    forall i | 0 <= i < |c.machineIds| && c.machineIds[i] in x.machines
      ensures z.machines[c.machineIds[i]] == if i < n then DriftRow(x.machines[c.machineIds[i]], k) else x.machines[c.machineIds[i]]
    {
      if i < n - 1 { NoDupIndex(c.machineIds, i, n - 1); }
      if n - 1 < i { NoDupIndex(c.machineIds, n - 1, i); }
    }
  }

  lemma DriftedAll(c: Scenario, x: Shop, y: Shop, k: int)
    requires SetOf(c.machineIds) == x.machines.Keys && Drifted(c, x, y, |c.machineIds|, k)
    ensures y == x.(machines := DriftRows(x.machines, k))
  {
    forall m | m in x.machines ensures y.machines[m] == DriftRow(x.machines[m], k) {
      var i :| 0 <= i < |c.machineIds| && c.machineIds[i] == m;
    }
  }

  // -- working off a drifted shop --------------------------------------------------------------

  /** `y` is `x` except that the machines from `n` on have already drifted by `d`. */
  ghost predicate Behind(c: Scenario, x: Shop, y: Shop, n: nat, d: int) {
    && y == x.(machines := y.machines) && y.machines.Keys == x.machines.Keys
    && forall i {:trigger c.machineIds[i]} :: 0 <= i < |c.machineIds| && c.machineIds[i] in x.machines ==>
         y.machines[c.machineIds[i]] == if i < n then x.machines[c.machineIds[i]] else DriftRow(x.machines[c.machineIds[i]], d)
  }

  lemma BehindStep(c: Scenario, tick: int, x: Shop, y: Shop, n: nat, d: int, k: int)
    requires NoDup(c.machineIds) && 0 < n <= |c.machineIds| && Behind(c, x, y, n - 1, d)
    requires c.machineIds[n - 1] in x.machines && WorkableRow(c, x, c.machineIds[n - 1]) && WorkableRow(c, y, c.machineIds[n - 1])
    ensures Behind(c, ShopWork(c, tick, x, c.machineIds[n - 1], d + k), ShopWork(c, tick, y, c.machineIds[n - 1], k), n, d)
  {
    var m := c.machineIds[n - 1];
    assert y.machines[m] == DriftRow(x.machines[m], d);
    var a, b := ShopWork(c, tick, x, m, d + k), ShopWork(c, tick, y, m, k);
    forall i | 0 <= i < |c.machineIds| && c.machineIds[i] in a.machines
      ensures b.machines[c.machineIds[i]] == if i < n then a.machines[c.machineIds[i]] else DriftRow(a.machines[c.machineIds[i]], d)
    {
      if i < n - 1 { NoDupIndex(c.machineIds, i, n - 1); }
      if n - 1 < i { NoDupIndex(c.machineIds, n - 1, i); }
    }
  }

  lemma {:induction false} WorksCatchUp(c: Scenario, tick: int, x: Shop, y: Shop, n: nat, d: int, k: int)
    requires Workable(c, x) && Workable(c, y) && n <= |c.machineIds| && NoDup(c.machineIds)
    requires forall m :: m in c.machineIds ==> m in x.machines && m in y.machines
    requires Behind(c, x, y, 0, d)
    ensures Behind(c, ShopWorks(c, tick, x, n, d + k), ShopWorks(c, tick, y, n, k), n, d)
  {
    if n > 0 {
      WorksCatchUp(c, tick, x, y, n - 1, d, k);
      var a, b, m := ShopWorks(c, tick, x, n - 1, d + k), ShopWorks(c, tick, y, n - 1, k), c.machineIds[n - 1];
      assert WorkableRow(c, a, m) && WorkableRow(c, b, m);
      BehindStep(c, tick, a, b, n, d, k);
    }
  }

  lemma CaughtUp(c: Scenario, x: Shop, y: Shop, d: int)
    requires SetOf(c.machineIds) == x.machines.Keys && Behind(c, x, y, |c.machineIds|, d)
    ensures y == x
  {
    forall m | m in x.machines ensures y.machines[m] == x.machines[m] {
      var i :| 0 <= i < |c.machineIds| && c.machineIds[i] == m;
    }
    assert y.machines == x.machines;
  }

  // -- one tick inside a quiet interval --------------------------------------------------------

  function Later(s: State, k: int): State {
    s.(tick := s.tick + k)
  }

  lemma DepartWaits(c: Scenario, s: State, acts: Actions, k: int)
    requires WellFormed(c) && Inv(c, s) && Reachable(s, k) && AllWait(acts)
    ensures Depart(c, s, acts, k) == Later(s, k)
  {
    WaitMoves(c, s, acts);
  }

  /** Assignments only lead to an Output or to the PRE of a machine that is up. */
  lemma NoneDownLater(c: Scenario, s: State, k: int)
    requires WellFormed(c) && Inv(c, s) && AllFirm(c, s) && FlagsCurrent(c, s)
    requires k >= 0 && NoEdge(c.outages, s.tick, s.tick + k)
    ensures NoneDown(c, Later(s, k))
  {
    forall v | v in s.assignments ensures !DownOwner(c, s.tick + k, s.assignments[v].destination) {
      FirmAssignment(c, s, v);
      var b := s.assignments[v].destination;
      if b in c.buffers && c.buffers[b].role.Pre? {
        var m := c.buffers[b].role.machine;
        assert FlagCurrent(c, s.machines, m, s.tick);
        AvailabilityIsConstant(c.outages, m, s.tick, s.tick + k);
      }
    }
  }

  lemma FirmAssignment(c: Scenario, s: State, v: AgvId)
    requires WellFormed(c) && Inv(c, s) && AllFirm(c, s) && v in s.assignments
    ensures Firm(c, s, v) && s.assignments[v].destination in c.buffers
    ensures !c.buffers[s.assignments[v].destination].role.Post?
  {
    assert AssignmentOk(c, s.jobs, s.agvs[v], s.assignments[v]);
    assert v in SetOf(c.agvIds);
    var i :| 0 <= i < |c.agvIds| && c.agvIds[i] == v;
    assert Firm(c, s, c.agvIds[i]);
  }

  lemma LaterFirm(c: Scenario, s: State, t: State)
    requires WellFormed(c) && Shaped(c, s) && Shaped(c, t) && AllFirm(c, s)
    requires t.agvs == s.agvs && t.assignments == s.assignments && t.jobs == s.jobs && t.machines.Keys == s.machines.Keys
    requires forall m :: m in s.machines ==> t.machines[m].down == s.machines[m].down
    ensures AllFirm(c, t)
  {
    forall i | 0 <= i < |c.agvIds| ensures Firm(c, t, c.agvIds[i]) { assert Firm(c, s, c.agvIds[i]); }
  }

  lemma QuietServices(c: Scenario, s: State)
    requires WellFormed(c) && Inv(c, s) && NoServices(s.agvs) && NoneDown(c, s) && AllFirm(c, s)
    ensures CompleteServices(c, s) == SyncIdle(c, s)
  {
    assert WithdrawTasks(c, s) == s;
  }

  lemma QuietWork(c: Scenario, s: State, k: int)
    requires WellFormed(c) && Inv(c, s) && Reachable(s, k) && StillRunning(s.machines, k)
    ensures Works(c, s, |c.machineIds|, k) == s.(machines := DriftRows(s.machines, k))
  {
    var t := Works(c, s, |c.machineIds|, k);
    WorksDrift(c, s.tick, ShopOf(s), |c.machineIds|, k);
    DriftedAll(c, ShopOf(s), ShopWorks(c, s.tick, ShopOf(s), |c.machineIds|, k), k);
  }

  lemma DriftSettled(c: Scenario, s: State, k: int)
    requires Settled(c, s)
    ensures Settled(c, Drift(s, k))
  {
    var t := Drift(s, k);
    forall m | m in t.machines ensures MachineStuck(c, t.jobs, t.machines, t.storage, m) {
      assert MachineStuck(c, s.jobs, s.machines, s.storage, m);
    }
    forall j | j in t.queue ensures QueueStuck(c, t.storage, j) { assert QueueStuck(c, s.storage, j); }
  }

  lemma DriftFlags(c: Scenario, s: State, k: int)
    requires FlagsCurrent(c, s) && k >= 0 && NoEdge(c.outages, s.tick, s.tick + k)
    ensures FlagsCurrent(c, Drift(s, k))
  {
    var t := Drift(s, k);
    forall m | m in t.machines ensures FlagCurrent(c, t.machines, m, t.tick) {
      assert FlagCurrent(c, s.machines, m, s.tick);
      AvailabilityIsConstant(c.outages, m, s.tick, s.tick + k);
    }
  }

  lemma DriftDue(c: Scenario, s: State, k: int)
    requires DueReleased(c, s) && k >= 0
    requires forall d :: d in c.demands && s.tick < c.demands[d].releaseAt ==> s.tick + k < c.demands[d].releaseAt
    ensures DueReleased(c, Drift(s, k))
  {
    forall d | d in c.demands ensures DueFlag(c, s.ledger.released, s.tick + k, d) {
      assert DueFlag(c, s.ledger.released, s.tick, d);
    }
  }

  /** The idle clocks of exactly the idle vehicles run. */
  ghost predicate ClocksExact(s: State) {
    forall v :: v in s.idleSince <==> v in s.agvs && IdleVehicle(s.agvs[v])
  }

  lemma SyncLater(c: Scenario, s: State, k: int)
    requires ClocksKnown(c, s) && !Done(c, s) && !Done(c, Later(s, k))
    ensures SyncIdle(c, Later(s, k)) == Later(SyncIdle(c, s), k) && ClocksExact(SyncIdle(c, s))
  {
    forall v | v in s.agvs && IdleVehicle(s.agvs[v]) ensures v in s.idleSince { assert Clocked(s.agvs, s.idleSince, v); }
    assert SyncIdle(c, Later(s, k)).idleSince == SyncIdle(c, s).idleSince;
  }

  lemma ExactSync(c: Scenario, s: State)
    requires ClocksExact(s) && !Done(c, s)
    ensures SyncIdle(c, s) == s
  {
    assert SyncIdle(c, s).idleSince == s.idleSince;
  }

  /** Between decisions: stable, and every assignment leads its vehicle to an available station. */
  ghost predicate Decided(c: Scenario, s: State)
    requires WellFormed(c)
  {
    Stable(c, s) && AllFirm(c, s) && !Done(c, s)
  }

  lemma QuietParts(c: Scenario, s: State, k: int)
    requires WellFormed(c) && Decided(c, s) && Quiet(c, s, k) && k >= 2
    ensures Reachable(s, 1) && StillRunning(s.machines, 1) && NoServices(s.agvs) && NoEdge(c.outages, s.tick, s.tick + 1)
    ensures !Done(c, Later(s, 1)) && Reachable(Drift(s, 1), k - 1)
    ensures forall d :: d in c.demands && s.tick < c.demands[d].releaseAt ==> s.tick + 1 < c.demands[d].releaseAt
  {
    forall m | m in s.machines ensures WithinWork(s.machines, m, 1) { assert WithinWork(s.machines, m, k); }
    forall m | m in s.machines && s.machines[m].status.Processing? && !s.machines[m].down
      ensures 1 < s.machines[m].remaining
    {
      assert WithinWork(s.machines, m, k);
    }
    var t := Drift(s, 1);
    forall m | m in t.machines ensures WithinWork(t.machines, m, k - 1) { assert WithinWork(s.machines, m, k); }
  }

  lemma QuietTickServices(c: Scenario, s: State)
    requires WellFormed(c) && Decided(c, s) && !Done(c, Later(s, 1)) && Inv(c, Later(s, 1))
    requires NoServices(s.agvs) && NoEdge(c.outages, s.tick, s.tick + 1)
    ensures CompleteServices(c, Later(s, 1)) == Later(SyncIdle(c, s), 1)
  {
    LaterFirm(c, s, Later(s, 1));
    NoneDownLater(c, s, 1);
    QuietServices(c, Later(s, 1));
    SyncLater(c, s, 1);
  }

  lemma QuietTickWork(c: Scenario, x: State)
    requires WellFormed(c) && Inv(c, Later(x, 1)) && Reachable(x, 1) && StillRunning(x.machines, 1)
    ensures Reachable(Later(x, 1), 1) && Works(c, Later(x, 1), |c.machineIds|, 1) == Drift(x, 1)
  {
    var w := Later(x, 1);
    forall m | m in w.machines ensures WithinWork(w.machines, m, 1) { assert WithinWork(x.machines, m, 1); }
    QuietWork(c, w, 1);
  }

  lemma QuietTickBoundary(c: Scenario, s: State)
    requires WellFormed(c) && Decided(c, s) && NoEdge(c.outages, s.tick, s.tick + 1)
    requires forall d :: d in c.demands && s.tick < c.demands[d].releaseAt ==> s.tick + 1 < c.demands[d].releaseAt
    requires Inv(c, Drift(SyncIdle(c, s), 1))
    ensures Boundary(c, Drift(SyncIdle(c, s), 1), false) == Drift(SyncIdle(c, s), 1)
  {
    var x := SyncIdle(c, s);
    assert Settled(c, x) && FlagsCurrent(c, x) && DueReleased(c, x);
    DriftSettled(c, x, 1);
    DriftFlags(c, x, 1);
    DriftDue(c, x, 1);
  }

  /** One tick strictly inside a quiet interval only runs the machines and synchronizes the clocks. */
  lemma QuietTick(c: Scenario, s: State, acts: Actions, k: int)
    requires WellFormed(c) && Decided(c, s) && Quiet(c, s, k) && k >= 2 && AllWait(acts)
    ensures Reachable(s, 1) && Interval(c, s, acts, 1) == Drift(SyncIdle(c, s), 1)
  {
    QuietParts(c, s, k);
    DepartWaits(c, s, acts, 1);
    var u := Depart(c, s, acts, 1);
    QuietTickServices(c, s);
    assert Inv(c, CompleteServices(c, u));
    QuietTickWork(c, SyncIdle(c, s));
    assert Advance(c, u, 1) == Drift(SyncIdle(c, s), 1);
    QuietTickBoundary(c, s);
  }

  // -- merging a tick into the jump that follows it ---------------------------------------------

  ghost predicate Restful(c: Scenario, s: State)
    requires WellFormed(c) && Inv(c, s)
  {
    NoServices(s.agvs) && AllFirm(c, s)
  }

  /** Equal but for the clock, the idle clocks and the machines. */
  ghost predicate SameYet(s: State, t: State) {
    && t.jobs == s.jobs && t.queue == s.queue && t.storage == s.storage && t.agvs == s.agvs
    && t.ledger == s.ledger && t.assignments == s.assignments && t.log == s.log
  }

  lemma RestfulServices(c: Scenario, a: State)
    requires WellFormed(c) && Inv(c, a) && Restful(c, a)
    ensures VehiclesListed(Turns(c, a.log), a.agvs)
    ensures CompleteServices(c, a) == SyncIdle(c, WithFleet(a, FleetTurns(c, FleetOf(a), a.tick, Done(c, a))))
  {
  }

  /** Without services in progress, the services phase does not look at running times. */
  lemma ServicesIgnoreDrift(c: Scenario, a: State, b: State)
    requires WellFormed(c) && Inv(c, a) && Inv(c, b) && Restful(c, a) && Restful(c, b)
    requires SameYet(a, b) && b.tick == a.tick && b.idleSince == a.idleSince
    ensures var p, q := CompleteServices(c, a), CompleteServices(c, b);
            SameYet(p, q) && q.tick == p.tick && q.idleSince == p.idleSince && q.machines == b.machines && p.machines == a.machines
  {
    RestfulServices(c, a);
    RestfulServices(c, b);
    FleetIgnoresDrift(c, a, b);
  }

  lemma FleetIgnoresDrift(c: Scenario, a: State, b: State)
    requires SameYet(a, b) && b.tick == a.tick && b.idleSince == a.idleSince && VehiclesListed(Turns(c, a.log), a.agvs)
    ensures var p := SyncIdle(c, WithFleet(a, FleetTurns(c, FleetOf(a), a.tick, Done(c, a))));
            var q := SyncIdle(c, WithFleet(b, FleetTurns(c, FleetOf(b), b.tick, Done(c, b))));
            SameYet(p, q) && q.tick == p.tick && q.idleSince == p.idleSince && q.machines == b.machines && p.machines == a.machines
  {
    assert FleetOf(a) == FleetOf(b) && Done(c, a) == Done(c, b);
  }

  lemma WorksMerge(c: Scenario, p: State, q: State, k: int)
    requires WellFormed(c) && Inv(c, p) && Inv(c, q) && SameYet(p, q) && q.tick == p.tick && q.idleSince == p.idleSince && q.machines == DriftRows(p.machines, 1)
    requires k >= 2 && Reachable(p, k) && Reachable(q, k - 1)
    ensures Works(c, q, |c.machineIds|, k - 1) == Works(c, p, |c.machineIds|, k)
  {
    var n := |c.machineIds|;
    InvWorkable(c, p);
    InvWorkable(c, q);
    WorksCatchUp(c, p.tick, ShopOf(p), ShopOf(q), n, 1, k - 1);
    var x, y := ShopWorks(c, p.tick, ShopOf(p), n, k), ShopWorks(c, p.tick, ShopOf(q), n, k - 1);
    CaughtUp(c, x, y, 1);
    assert Works(c, p, n, k) == WithShop(p, x);
    assert Works(c, q, n, k - 1) == WithShop(q, y);
  }

  lemma AdvanceMerge(c: Scenario, a: State, b: State, k: int)
    requires WellFormed(c) && Inv(c, a) && Inv(c, b) && Restful(c, a) && Restful(c, b)
    requires SameYet(a, b) && b.tick == a.tick && b.idleSince == a.idleSince && b.machines == DriftRows(a.machines, 1)
    requires k >= 2 && Reachable(a, k) && Reachable(b, k - 1)
    ensures Advance(c, b, k - 1) == Advance(c, a, k)
  {
    ServicesIgnoreDrift(c, a, b);
    var p, q := CompleteServices(c, a), CompleteServices(c, b);
    assert Reachable(p, k) by { forall m | m in p.machines ensures WithinWork(p.machines, m, k) { assert WithinWork(a.machines, m, k); } }
    assert Reachable(q, k - 1) by {
      forall m | m in q.machines ensures WithinWork(q.machines, m, k - 1) { assert WithinWork(b.machines, m, k - 1); }
    }
    WorksMerge(c, p, q, k);
  }

  lemma DepartFields(c: Scenario, s: State, acts: Actions, k: int)
    requires WellFormed(c) && Inv(c, s) && Reachable(s, k) && AllWait(acts)
    ensures var a := Depart(c, s, acts, k); SameYet(s, a) && a.tick == s.tick + k && a.idleSince == s.idleSince && a.machines == s.machines
  {
    DepartWaits(c, s, acts, k);
  }

  lemma LaterRestful(c: Scenario, s: State, t: State)
    requires WellFormed(c) && Inv(c, s) && Inv(c, t) && Restful(c, s)
    requires SameYet(s, t) && t.machines.Keys == s.machines.Keys
    requires forall m :: m in s.machines ==> t.machines[m].down == s.machines[m].down
    ensures Restful(c, t)
  {
    LaterFirm(c, s, t);
  }

  lemma SyncRestful(c: Scenario, s: State)
    requires WellFormed(c) && Decided(c, s) && NoServices(s.agvs)
    ensures Inv(c, SyncIdle(c, s)) && Restful(c, SyncIdle(c, s))
  {
    SyncKeeps(c, s);
    LaterRestful(c, s, SyncIdle(c, s));
  }

  /** A quiet tick and the jump after it make one longer jump. */
  lemma Merge(c: Scenario, x: State, y: State, acts: Actions, k: int)
    requires WellFormed(c) && Inv(c, x) && Inv(c, y) && Restful(c, x) && Restful(c, y)
    requires SameYet(x, y) && y.tick == x.tick + 1 && y.idleSince == x.idleSince && y.machines == DriftRows(x.machines, 1)
    requires AllWait(acts) && k >= 2 && Reachable(x, k) && Reachable(y, k - 1)
    ensures Interval(c, y, acts, k - 1) == Interval(c, x, acts, k)
  {
    DepartFields(c, x, acts, k);
    DepartFields(c, y, acts, k - 1);
    var a, b := Depart(c, x, acts, k), Depart(c, y, acts, k - 1);
    LaterRestful(c, x, a);
    LaterRestful(c, y, b);
    AdvanceMerge(c, a, b, k);
  }

  // -- the jump --------------------------------------------------------------------------------

  /** `x` is `s` with synchronized idle clocks. */
  ghost predicate Synced(c: Scenario, s: State, x: State) {
    SameYet(s, x) && x.tick == s.tick && x.machines == s.machines && x.idleSince == RunningClocks(s.agvs, s.idleSince, s.tick, Done(c, s))
  }

  /** `t` is `s` after one quiet tick. */
  ghost predicate Ticked(c: Scenario, s: State, t: State) {
    && SameYet(s, t) && t.tick == s.tick + 1 && t.machines == DriftRows(s.machines, 1)
    && t.idleSince == RunningClocks(s.agvs, s.idleSince, s.tick, Done(c, s))
  }

  lemma QuietTickFields(c: Scenario, s: State, acts: Actions, k: int)
    requires WellFormed(c) && Decided(c, s) && Quiet(c, s, k) && k >= 2 && AllWait(acts)
    ensures Reachable(s, 1) && Ticked(c, s, Interval(c, s, acts, 1))
  {
    QuietTick(c, s, acts, k);
  }

  lemma TickedQuiet(c: Scenario, s: State, t: State, k: int)
    requires Quiet(c, s, k) && k >= 2 && Ticked(c, s, t)
    ensures Quiet(c, t, k - 1) && NoServices(t.agvs)
  {
    forall m | m in t.machines ensures WithinWork(t.machines, m, k - 1) { assert WithinWork(s.machines, m, k); }
  }

  lemma TickedClocks(c: Scenario, s: State, t: State, k: int)
    requires Quiet(c, s, k) && k >= 2 && Ticked(c, s, t) && ClocksKnown(c, s) && !Done(c, s)
    ensures ClocksExact(t) && !Done(c, t)
  {
    SyncLater(c, s, 1);
  }

  /** The state after a quiet tick is again between decisions of a shorter quiet interval. */
  lemma TickedDecided(c: Scenario, s: State, t: State, k: int)
    requires WellFormed(c) && Decided(c, s) && Quiet(c, s, k) && k >= 2 && Ticked(c, s, t)
    requires Inv(c, t) && Calm(c, t) && DueReleased(c, t)
    ensures Decided(c, t)
  {
    TickedClocks(c, s, t, k);
    LaterFirm(c, s, t);
  }

  lemma TicksStep(c: Scenario, s: State, acts: Actions, k: nat)
    requires WellFormed(c) && Inv(c, s) && Reachable(s, 1) && k > 0
    ensures Ticks(c, s, acts, k) == Ticks(c, Interval(c, s, acts, 1), acts, k - 1)
  {
  }

  /** Everything known about the state after the first tick of a quiet interval. */
  lemma FirstTick(c: Scenario, s: State, t: State, acts: Actions, k: int)
    requires WellFormed(c) && Decided(c, s) && Quiet(c, s, k) && k >= 2 && AllWait(acts)
    requires Reachable(s, 1) && t == Interval(c, s, acts, 1)
    ensures Ticked(c, s, t) && Decided(c, t) && Quiet(c, t, k - 1) && NoServices(t.agvs) && ClocksExact(t)
  {
    QuietTickFields(c, s, acts, k);
    DueNotEarly(c, s);
    TickedDecided(c, s, t, k);
    TickedQuiet(c, s, t, k);
    TickedClocks(c, s, t, k);
  }

  lemma TicksOne(c: Scenario, s: State, acts: Actions)
    requires WellFormed(c) && Inv(c, s) && Reachable(s, 1)
    ensures Ticks(c, s, acts, 1) == Interval(c, s, acts, 1)
  {
    TicksStep(c, s, acts, 1);
  }

  /** One quiet tick is the first part of the subdivision and of the jump from synchronized clocks. */
  lemma JumpStep(c: Scenario, s: State, x: State, t: State, acts: Actions, k: int, rest: int)
    requires WellFormed(c) && Inv(c, s) && Inv(c, x) && Inv(c, t) && Restful(c, x) && Restful(c, t)
    requires Synced(c, s, x) && Ticked(c, s, t) && AllWait(acts) && k >= 2 && rest == k - 1
    requires Reachable(s, 1) && Reachable(x, k) && Reachable(t, rest) && t == Interval(c, s, acts, 1)
    ensures Ticks(c, s, acts, k) == Ticks(c, t, acts, rest)
    ensures Interval(c, t, acts, rest) == Interval(c, x, acts, k)
  {
    hide Interval, Ticks;
    TicksStep(c, s, acts, k);
    Merge(c, x, t, acts, k);
  }

  /** Subdividing a quiet interval gives the state of the jump that starts with synchronized clocks. */
  lemma {:induction false} JumpAfterSync(c: Scenario, s: State, x: State, acts: Actions, k: int)
    requires WellFormed(c) && Decided(c, s) && Quiet(c, s, k) && k >= 2 && AllWait(acts)
    requires Inv(c, x) && Restful(c, x) && Synced(c, s, x) && Reachable(x, k)
    ensures Ticks(c, s, acts, k) == Interval(c, x, acts, k)
    decreases k
  {
    hide Inv, Interval, Ticks, Calm, Ticked, AllFirm, DueReleased, WellFormed;
    OneTickIsReachable(c, s);
    var t := Interval(c, s, acts, 1);
    FirstTick(c, s, t, acts, k);
    JumpStep(c, s, x, t, acts, k, k - 1);
    if k > 2 {
      ExactSync(c, t);
      assert Synced(c, t, t);
      JumpAfterSync(c, t, t, acts, k - 1);
    } else {
      OneTickIsReachable(c, t);
      TicksOne(c, t, acts);
      assert k - 1 == 1;
    }
  }
}
