/** What the boundary phase achieves: after it, every job still queued faces a full Input, every
    machine still blocked faces a full POST, and the down flags are those of the calendar. */
module Settling {
  import opened Collections
  import opened Availability
  import opened Factory
  import opened Custody
  import opened Safety
  import opened Operations

  ghost predicate QueueStuck(c: Scenario, storage: Lists, j: JobId) {
    j.demand in c.demands && Crammed(c, storage, c.demands[j.demand].input)
  }

  ghost predicate MachineStuck(c: Scenario, jobs: Rows, machines: Machines, storage: Lists, m: MachineId)
    requires m in machines
  {
    machines[m].status.Blocked? ==>
      && machines[m].job.Some? && machines[m].job.value in jobs && m in c.post
      && !Capable(c, machines[m].job.value, jobs[machines[m].job.value].step, m)
      && Crammed(c, storage, c.post[m])
  }

  ghost predicate Settled(c: Scenario, s: State) {
    && (forall j {:trigger QueueStuck(c, s.storage, j)} :: j in s.queue ==> QueueStuck(c, s.storage, j))
    && (forall m {:trigger MachineStuck(c, s.jobs, s.machines, s.storage, m)} ::
          m in s.machines ==> MachineStuck(c, s.jobs, s.machines, s.storage, m))
  }

  ghost predicate FlagsCurrent(c: Scenario, s: State) {
    forall m {:trigger FlagCurrent(c, s.machines, m, s.tick)} :: m in s.machines ==> FlagCurrent(c, s.machines, m, s.tick)
  }

  ghost predicate FlagCurrent(c: Scenario, machines: Machines, m: MachineId, tick: int)
    requires m in machines
  {
    machines[m].down == DownAt(c.outages, m, tick)
  }

  // -- flags -----------------------------------------------------------------------------------

  /** The lookup used before the protocol exists agrees with the bisected one at this tick. */
  ghost predicate ScanAgrees(c: Scenario, t: int, scan: bool) {
    scan ==> forall m {:trigger DownAt(c.outages, m, t)} :: m in c.machines ==> DownAt(c.outages, m, t) == Covered(c.outages, m, t)
  }

  /** The first `n` machines have current flags. */
  ghost predicate Flagged(c: Scenario, machines: Machines, tick: int, n: nat) {
    forall i {:trigger c.machineIds[i]} :: 0 <= i < n <= |c.machineIds| && c.machineIds[i] in machines ==>
      FlagCurrent(c, machines, c.machineIds[i], tick)
  }

  ghost predicate OnlyFlags(s: State, t: State) {
    t == s.(machines := t.machines, log := t.log) && t.machines.Keys == s.machines.Keys
  }

  lemma OnlyFlagsStep(s: State, u: State, m: MachineId, down: bool)
    requires OnlyFlags(s, u) && m in u.machines
    ensures OnlyFlags(s, SetDown(u, m, down))
    ensures SetDown(u, m, down).machines == u.machines[m := u.machines[m].(down := down)]
  {
    assert u.machines[m := u.machines[m]] == u.machines;
  }

  lemma FlagStep(c: Scenario, machines: Machines, tick: int, n: nat, m: MachineId)
    requires NoDup(c.machineIds) && 0 < n <= |c.machineIds| && m == c.machineIds[n - 1] && m in machines
    requires Flagged(c, machines, tick, n - 1)
    ensures Flagged(c, machines[m := machines[m].(down := DownAt(c.outages, m, tick))], tick, n)
  {
    var after := machines[m := machines[m].(down := DownAt(c.outages, m, tick))];
    forall i | 0 <= i < n && c.machineIds[i] in after ensures FlagCurrent(c, after, c.machineIds[i], tick) {
      if i < n - 1 {
        NoDupIndex(c.machineIds, i, n - 1);
        assert FlagCurrent(c, machines, c.machineIds[i], tick);
      }
    }
  }

  // -- releases --------------------------------------------------------------------------------

  /** Nothing is shipped. */
  ghost predicate SameShipments(l: Ledger, after: Ledger) {
    after.shipped == l.shipped && after.shipmentTimes == l.shipmentTimes && after.good == l.good
  }

  /** Nothing physical moves. */
  ghost predicate SameYard(s: State, t: State) {
    && t.machines == s.machines && t.tick == s.tick && t.storage == s.storage
    && t.agvs == s.agvs && t.assignments == s.assignments && t.idleSince == s.idleSince
    && SameShipments(s.ledger, t.ledger)
  }

  /** Demands due among the first `n` are released, and none is withdrawn. */
  ghost predicate DueAmong(c: Scenario, released: set<DemandId>, tick: int, n: nat) {
    forall i {:trigger c.demandIds[i]} :: 0 <= i < n <= |c.demandIds| ==>
      (c.demandIds[i] in c.demands && c.demands[c.demandIds[i]].releaseAt <= tick ==> c.demandIds[i] in released)
  }

  /** Released demands are exactly the due ones. */
  ghost predicate DueReleased(c: Scenario, s: State) {
    forall d {:trigger DueFlag(c, s.ledger.released, s.tick, d)} :: d in c.demands ==> DueFlag(c, s.ledger.released, s.tick, d)
  }

  ghost predicate DueFlag(c: Scenario, released: set<DemandId>, tick: int, d: DemandId)
    requires d in c.demands
  {
    d in released <==> c.demands[d].releaseAt <= tick
  }

  /** No released demand lies in the future. */
  ghost predicate NoneEarly(c: Scenario, released: set<DemandId>, tick: int) {
    forall d {:trigger NotEarly(c, tick, d)} :: d in released && d in c.demands ==> NotEarly(c, tick, d)
  }

  ghost predicate NotEarly(c: Scenario, tick: int, d: DemandId)
    requires d in c.demands
  {
    c.demands[d].releaseAt <= tick
  }

  lemma LaterNotEarly(c: Scenario, released: set<DemandId>, t0: int, t1: int)
    requires t0 <= t1
    ensures NoneEarly(c, released, t0) ==> NoneEarly(c, released, t1)
  {
    if NoneEarly(c, released, t0) {
      forall d | d in released && d in c.demands ensures NotEarly(c, t1, d) { assert NotEarly(c, t0, d); }
    }
  }

  lemma DueNotEarly(c: Scenario, s: State)
    requires DueReleased(c, s)
    ensures NoneEarly(c, s.ledger.released, s.tick)
  {
    forall d | d in s.ledger.released && d in c.demands ensures NotEarly(c, s.tick, d) {
      assert DueFlag(c, s.ledger.released, s.tick, d);
    }
  }

  lemma ReleaseFrame(c: Scenario, s: State, d: DemandId)
    requires d in c.demands
    ensures var t := ReleaseDemand(c, s, d);
            && SameYard(s, t) && (t == s || (d !in s.ledger.released && t.ledger.released == s.ledger.released + {d}))
            && (c.demands[d].releaseAt <= s.tick ==> d in t.ledger.released)
            && (c.demands[d].releaseAt > s.tick ==> t == s)
  {
  }

  /** Progress of the release loop. */
  ghost predicate ReleasedTo(c: Scenario, s: State, t: State, n: nat) {
    && SameYard(s, t) && DueAmong(c, t.ledger.released, s.tick, n)
    && (NoneEarly(c, s.ledger.released, s.tick) ==> NoneEarly(c, t.ledger.released, s.tick))
    && (DueReleased(c, s) ==> t == s)
  }

  lemma ReleaseStep(c: Scenario, s: State, u: State, n: nat, d: DemandId)
    requires 0 < n <= |c.demandIds| && d == c.demandIds[n - 1] && d in c.demands && ReleasedTo(c, s, u, n - 1)
    ensures ReleasedTo(c, s, ReleaseDemand(c, u, d), n)
  {
    ReleaseFrame(c, u, d);
    if DueReleased(c, s) { assert DueFlag(c, s.ledger.released, s.tick, d); }
    if NoneEarly(c, s.ledger.released, s.tick) {
      forall x | x in ReleaseDemand(c, u, d).ledger.released && x in c.demands ensures NotEarly(c, s.tick, x) {
        if x in u.ledger.released { assert NotEarly(c, s.tick, x); }
      }
    }
  }

  // -- admission -------------------------------------------------------------------------------

  /** Lists only grow. */
  ghost predicate Grows(before: Lists, after: Lists) {
    after.Keys == before.Keys && forall p :: p in before ==> |before[p]| <= |after[p]|
  }

  lemma CrammedStays(c: Scenario, before: Lists, after: Lists, b: BufferId)
    requires Crammed(c, before, b) && Grows(before, after)
    ensures Crammed(c, after, b)
  {
    forall k | KnownPlace(c, Place(b, k)) ensures FullPlace(c, after, Place(b, k)) {
      assert FullPlace(c, before, Place(b, k));
    }
  }

  ghost predicate AllStuck(c: Scenario, storage: Lists, queue: seq<JobId>) {
    forall j {:trigger QueueStuck(c, storage, j)} :: j in queue ==> QueueStuck(c, storage, j)
  }

  lemma AllStuckStays(c: Scenario, before: Lists, after: Lists, queue: seq<JobId>)
    requires AllStuck(c, before, queue) && Grows(before, after)
    ensures AllStuck(c, after, queue)
  {
    forall j | j in queue ensures QueueStuck(c, after, j) {
      assert QueueStuck(c, before, j);
      CrammedStays(c, before, after, c.demands[j.demand].input);
    }
  }

  lemma AllStuckAppend(c: Scenario, storage: Lists, queue: seq<JobId>, j: JobId)
    requires AllStuck(c, storage, queue) && QueueStuck(c, storage, j)
    ensures AllStuck(c, storage, queue + [j])
  {
    forall i | i in queue + [j] ensures QueueStuck(c, storage, i) {
      if i != j { assert QueueStuck(c, storage, i); }
    }
  }

  /** Admission leaves machines, vehicles and the clock alone. */
  ghost predicate Admitted(s: State, t: State) {
    && t.machines == s.machines && t.tick == s.tick && t.agvs == s.agvs && t.assignments == s.assignments
    && t.idleSince == s.idleSince && t.ledger == s.ledger && SameSteps(s, t) && Grows(s.storage, t.storage)
  }

  lemma AdmitFrame(s: State, j: JobId, p: Place, q: seq<JobId>)
    requires j in s.jobs && p in s.storage
    ensures Admitted(s, AdmitJob(s, j, p, q)) && AdmitJob(s, j, p, q).queue == q
  {
  }

  // -- unblocking ------------------------------------------------------------------------------

  ghost predicate SameSteps(s: State, t: State) {
    t.jobs.Keys == s.jobs.Keys && forall j :: j in s.jobs ==> t.jobs[j].step == s.jobs[j].step
  }

  /** Only the machine's row, the finished job's place and the POST list change. */
  ghost predicate Unblocked(s: State, t: State, m: MachineId) {
    && t == s.(machines := t.machines, jobs := t.jobs, storage := t.storage, log := t.log)
    && SameSteps(s, t) && Grows(s.storage, t.storage)
    && m in s.machines && m in t.machines && t.machines == s.machines[m := t.machines[m]]
    && t.machines[m].down == s.machines[m].down
  }

  lemma ReleaseJobFrame(s: State, m: MachineId, j: JobId, p: Place)
    requires m in s.machines && j in s.jobs && p in s.storage
    ensures Unblocked(s, ReleaseJob(s, m, j, p), m) && ReleaseJob(s, m, j, p).machines[m].status == Idle
  {
  }

  lemma UnblockFrame(c: Scenario, s: State, m: MachineId)
    requires WellFormed(c) && Inv(c, s) && m in c.machines
    ensures var t := Unblock(c, s, m); Unblocked(s, t, m) && MachineStuck(c, t.jobs, t.machines, t.storage, m)
  {
    assert MachineOk(c, s.jobs, m, s.machines[m]) && GoodMachine(c, m);
    if s.machines[m].status.Blocked? {
      var j := s.machines[m].job.value;
      if !Capable(c, j, s.jobs[j].step, m) && Free(c, s, c.post[m]).Some? {
        ReleaseJobFrame(s, m, j, Place(c.post[m], Free(c, s, c.post[m]).value));
      }
    }
  }

  /** The first `n` machines are done; every row outside them and every flag is untouched. */
  ghost predicate Cleared(c: Scenario, s: State, t: State, n: nat) {
    && t == s.(machines := t.machines, jobs := t.jobs, storage := t.storage, log := t.log)
    && t.machines.Keys == s.machines.Keys && SameSteps(s, t) && Grows(s.storage, t.storage)
    && (forall m :: m in s.machines ==> t.machines[m].down == s.machines[m].down)
    && forall i {:trigger c.machineIds[i]} :: 0 <= i < n <= |c.machineIds| && c.machineIds[i] in t.machines ==>
         MachineStuck(c, t.jobs, t.machines, t.storage, c.machineIds[i])
  }

  lemma ClearStep(c: Scenario, s: State, u: State, t: State, n: nat)
    requires NoDup(c.machineIds) && 0 < n <= |c.machineIds|
    requires Cleared(c, s, u, n - 1) && Unblocked(u, t, c.machineIds[n - 1])
    requires MachineStuck(c, t.jobs, t.machines, t.storage, c.machineIds[n - 1])
    ensures Cleared(c, s, t, n)
  {
    forall i | 0 <= i < n - 1 && c.machineIds[i] in t.machines
      ensures MachineStuck(c, t.jobs, t.machines, t.storage, c.machineIds[i])
    {
      NoDupIndex(c.machineIds, i, n - 1);
      assert MachineStuck(c, u.jobs, u.machines, u.storage, c.machineIds[i]);
      if u.machines[c.machineIds[i]].status.Blocked? {
        CrammedStays(c, u.storage, t.storage, c.post[c.machineIds[i]]);
      }
    }
  }
}
