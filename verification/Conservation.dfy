/** The physical self-check of the simulator, over the list of everything that is held, and the
    proof that it passes in every safe state. */
module Conservation {
  import opened Collections
  import opened Factory
  import opened Custody
  import opened Safety
  import opened Checks

  function StorageJobs(c: Scenario, s: State, ids: seq<BufferId>): seq<JobId>
    requires forall b :: b in ids ==> b in c.buffers
  {
    if ids == [] then [] else Items(c, s, ids[0]) + StorageJobs(c, s, ids[1..])
  }

  function AgvJobs(s: State, ids: seq<AgvId>): seq<JobId> {
    if ids == [] then []
    else (if ids[0] in s.agvs && s.agvs[ids[0]].job.Some? then [s.agvs[ids[0]].job.value] else []) + AgvJobs(s, ids[1..])
  }

  function MachineJobs(s: State, ids: seq<MachineId>): seq<JobId> {
    if ids == [] then [] else OnMachine(s, ids[0]) + MachineJobs(s, ids[1..])
  }

  /** Everything any holder lists. */
  function Holdings(c: Scenario, s: State): seq<JobId>
    requires WellFormed(c)
  {
    assert forall b :: b in c.bufferIds <==> b in SetOf(c.bufferIds);
    StorageJobs(c, s, c.bufferIds) + AgvJobs(s, c.agvIds) + MachineJobs(s, c.machineIds) + s.queue
  }

  /** The demands of the listed jobs that are not in an Output. */
  function Active(c: Scenario, s: State, held: seq<JobId>): seq<DemandId> {
    if held == [] then []
    else (if held[0] in s.jobs && !InOutput(c, s.jobs[held[0]].loc) then [held[0].demand] else []) + Active(c, s, held[1..])
  }

  /** `_check`: no collision, no overflow, matching identities, one holder per job, and every
      released demand is either active exactly once or completed. */
  ghost predicate Check(c: Scenario, s: State)
    requires WellFormed(c)
  {
    && (forall v, w :: v in s.agvs && w in s.agvs && v != w ==> s.agvs[v].cell != s.agvs[w].cell)
    && (forall v :: v in s.agvs ==> s.agvs[v].cell !in c.solids)
    && (forall p :: p in s.storage ==> StorageIdentity(c, s, p))
    && (forall v :: v in s.agvs && s.agvs[v].job.Some? ==>
          s.agvs[v].job.value in s.jobs && s.jobs[s.agvs[v].job.value].loc == OnAgv(v))
    && (forall m :: m in s.machines && s.machines[m].job.Some? ==>
          s.machines[m].job.value in s.jobs && s.jobs[s.machines[m].job.value].loc == AtMachine(m))
    && var held := Holdings(c, s);
       var active := Active(c, s, held);
       && NoDup(held) && NoDup(active)
       && SetOf(active) !! s.ledger.shipped && SetOf(active) + s.ledger.shipped == s.ledger.released
       && s.ledger.good <= s.ledger.shipped
  }

  ghost predicate StorageIdentity(c: Scenario, s: State, p: Place)
    requires p in s.storage
  {
    && p.owner in c.buffers && p.slot in c.buffers[p.owner].capacity
    && (var cap := c.buffers[p.owner].capacity[p.slot]; cap.Some? ==> |s.storage[p]| <= cap.value)
    && forall j :: j in s.storage[p] ==> j in s.jobs && s.jobs[j].loc == Stored(p)
  }

  // -- one holder per job ----------------------------------------------------------------------

  lemma TailDistinct<T(!new)>(q: seq<T>)
    requires NoDup(q) && q != []
    ensures NoDup(q[1..]) && q[0] !in q[1..]
    ensures forall x :: x in q <==> x == q[0] || x in q[1..]
  {
    assert q == [q[0]] + q[1..];
    assert multiset(q)[q[0]] <= 1;
    forall k ensures multiset(q[1..])[k] <= 1 { assert multiset(q)[k] <= 1; }
  }

  lemma {:induction false} StorageJobsMeaning(c: Scenario, s: State, ids: seq<BufferId>)
    requires WellFormed(c) && Shaped(c, s) && Held(s) && NoDup(ids) && forall b :: b in ids ==> b in c.buffers
    ensures NoDup(StorageJobs(c, s, ids))
    ensures forall j :: j in StorageJobs(c, s, ids) <==>
              j in s.jobs && s.jobs[j].loc.Stored? && s.jobs[j].loc.place.owner in ids
  {
    if ids != [] {
      TailDistinct(ids);
      ItemsMeaning(c, s, ids[0]);
      StorageJobsMeaning(c, s, ids[1..]);
      DisjointLists(Items(c, s, ids[0]), StorageJobs(c, s, ids[1..]));
    }
  }

  lemma {:induction false} AgvJobsMeaning(s: State, ids: seq<AgvId>)
    requires Held(s) && NoDup(ids)
    ensures NoDup(AgvJobs(s, ids))
    ensures forall j :: j in AgvJobs(s, ids) <==> j in s.jobs && s.jobs[j].loc.OnAgv? && s.jobs[j].loc.agv in ids
  {
    if ids != [] {
      TailDistinct(ids);
      AgvJobsMeaning(s, ids[1..]);
      var here := if ids[0] in s.agvs && s.agvs[ids[0]].job.Some? then [s.agvs[ids[0]].job.value] else [];
      if ids[0] in s.agvs { assert AgvNames(s.jobs, s.agvs, ids[0]); }
      forall j | j in s.jobs && s.jobs[j].loc == OnAgv(ids[0]) ensures j in here {
        assert Located(s.jobs, s.queue, s.storage, s.machines, s.agvs, j);
      }
      forall k ensures multiset(here)[k] <= 1 {}
      DisjointLists(here, AgvJobs(s, ids[1..]));
    }
  }

  lemma {:induction false} MachineJobsMeaning(s: State, ids: seq<MachineId>)
    requires Held(s) && NoDup(ids) && forall m :: m in ids ==> m in s.machines
    ensures NoDup(MachineJobs(s, ids))
    ensures forall j :: j in MachineJobs(s, ids) <==> j in s.jobs && s.jobs[j].loc.AtMachine? && s.jobs[j].loc.machine in ids
  {
    if ids != [] {
      TailDistinct(ids);
      MachineJobsMeaning(s, ids[1..]);
      OnMachineMeaning(s, ids[0]);
      DisjointLists(OnMachine(s, ids[0]), MachineJobs(s, ids[1..]));
    }
  }

  /** The holders list every job exactly once. */
  lemma HoldingsAreAllJobs(c: Scenario, s: State)
    requires WellFormed(c) && Shaped(c, s) && Held(s)
    ensures NoDup(Holdings(c, s)) && forall j :: j in Holdings(c, s) <==> j in s.jobs
  {
    Identifiers(c);
    StorageJobsMeaning(c, s, c.bufferIds);
    AgvJobsMeaning(s, c.agvIds);
    MachineJobsMeaning(s, c.machineIds);
    QueueMeaning(s);
    var a, b := StorageJobs(c, s, c.bufferIds), AgvJobs(s, c.agvIds);
    var d := MachineJobs(s, c.machineIds);
    DisjointLists(a, b);
    DisjointLists(a + b, d);
    DisjointLists(a + b + d, s.queue);
    forall j | j in s.jobs ensures j in a + b + d + s.queue {
      Placed(c, s, j);
    }
  }

  lemma Identifiers(c: Scenario)
    requires WellFormed(c)
    ensures forall b :: b in c.bufferIds <==> b in c.buffers
    ensures forall m :: m in c.machineIds <==> m in c.machines
    ensures forall v :: v in c.agvIds <==> v in c.start
    ensures forall d :: d in c.demandIds <==> d in c.demands
  {
    assert forall b :: b in c.bufferIds <==> b in SetOf(c.bufferIds);
    assert forall m :: m in c.machineIds <==> m in SetOf(c.machineIds);
    assert forall v :: v in c.agvIds <==> v in SetOf(c.agvIds);
    assert forall d :: d in c.demandIds <==> d in SetOf(c.demandIds);
  }

  lemma QueueMeaning(s: State)
    requires Held(s)
    ensures NoDup(s.queue) && forall j :: j in s.queue <==> j in s.jobs && s.jobs[j].loc.Queued?
  {
    forall j ensures j in s.queue <==> j in s.jobs && s.jobs[j].loc.Queued? {
      if j in s.queue { assert Names(s.jobs, j, Queued); }
      if j in s.jobs { assert Located(s.jobs, s.queue, s.storage, s.machines, s.agvs, j); }
    }
  }

  lemma Placed(c: Scenario, s: State, j: JobId)
    requires WellFormed(c) && Shaped(c, s) && Held(s) && j in s.jobs
    ensures var loc := s.jobs[j].loc;
            || (loc.Stored? && loc.place.owner in c.buffers) || (loc.OnAgv? && loc.agv in c.start)
            || (loc.AtMachine? && loc.machine in c.machines) || loc.Queued?
  {
    assert Located(s.jobs, s.queue, s.storage, s.machines, s.agvs, j);
    if s.jobs[j].loc.Stored? { assert KnownPlace(c, s.jobs[j].loc.place); }
  }

  lemma {:induction false} ActiveMeaning(c: Scenario, s: State, held: seq<JobId>)
    requires LedgerOk(c, s.jobs, s.ledger) && NoDup(held) && forall j :: j in held ==> j in s.jobs
    ensures NoDup(Active(c, s, held))
    ensures forall d :: d in Active(c, s, held) <==> Job(d, 1) in held && d !in s.ledger.shipped
  {
    if held != [] {
      TailDistinct(held);
      var j := held[0];
      assert j in held;
      assert LedgerRow(c, s.jobs[j], j, s.ledger);
      ActiveMeaning(c, s, held[1..]);
      var here := if !InOutput(c, s.jobs[j].loc) then [j.demand] else [];
      forall k ensures multiset(here)[k] <= 1 {}
      DisjointLists(here, Active(c, s, held[1..]));
    }
  }

  /** `_check` passes in every safe state. */
  lemma CheckNeverFails(c: Scenario, s: State)
    requires WellFormed(c) && Inv(c, s)
    ensures Check(c, s)
  {
    HoldingsAreAllJobs(c, s);
    ActiveMeaning(c, s, Holdings(c, s));
    forall v, w | v in s.agvs && w in s.agvs && v != w ensures s.agvs[v].cell != s.agvs[w].cell {
      assert Compatible(s.agvs[v], s.agvs[w]);
    }
    forall v | v in s.agvs ensures s.agvs[v].cell !in c.solids && (s.agvs[v].job.Some? ==>
          s.agvs[v].job.value in s.jobs && s.jobs[s.agvs[v].job.value].loc == OnAgv(v)) {
      assert VehicleOk(c, s.jobs, s.agvs[v]);
      assert AgvNames(s.jobs, s.agvs, v);
    }
    forall m | m in s.machines && s.machines[m].job.Some? ensures
          s.machines[m].job.value in s.jobs && s.jobs[s.machines[m].job.value].loc == AtMachine(m) {
      assert MachineNames(s.jobs, s.machines, m);
    }
    forall p | p in s.storage ensures StorageIdentity(c, s, p) {
      IdentityHolds(c, s, p);
    }
    AllAccounted(c, s);
  }

  lemma IdentityHolds(c: Scenario, s: State, p: Place)
    requires WellFormed(c) && Shaped(c, s) && Held(s) && LocksFit(c, s.storage, s.agvs) && p in s.storage
    ensures StorageIdentity(c, s, p)
  {
    assert PlaceFits(c, s.storage, s.agvs, p);
    forall j | j in s.storage[p] ensures j in s.jobs && s.jobs[j].loc == Stored(p) {
      assert Names(s.jobs, j, Stored(p));
    }
  }

  lemma AllAccounted(c: Scenario, s: State)
    requires WellFormed(c) && Shaped(c, s) && Held(s) && LedgerOk(c, s.jobs, s.ledger)
    ensures var active := SetOf(Active(c, s, Holdings(c, s)));
            active !! s.ledger.shipped && active + s.ledger.shipped == s.ledger.released
  {
    HoldingsAreAllJobs(c, s);
    ActiveMeaning(c, s, Holdings(c, s));
    forall d | d in s.ledger.released ensures Job(d, 1) in s.jobs { assert Attempted(s.jobs, s.ledger, d); }
    forall d | Job(d, 1) in s.jobs ensures d in s.ledger.released {
      assert LedgerRow(c, s.jobs[Job(d, 1)], Job(d, 1), s.ledger);
    }
  }
}
