/** Who holds a job. Every job has one recorded location; the custody invariant says that the
    holders (queue, storage lists, machines, vehicles) and the recorded locations name each other. */
module Custody {
  import opened Collections
  import opened Factory

  type Rows = map<JobId, JobRow>
  type Lists = map<Place, seq<JobId>>
  type Machines = map<MachineId, MachineRow>
  type Agvs = map<AgvId, AgvRow>

  /** All holders and rows agree. */
  ghost predicate Custodial(jobs: Rows, queue: seq<JobId>, storage: Lists, machines: Machines, agvs: Agvs) {
    && (forall j {:trigger Located(jobs, queue, storage, machines, agvs, j)} ::
          j in jobs ==> Located(jobs, queue, storage, machines, agvs, j))
    && NoDup(queue)
    && (forall p {:trigger NoDup(storage[p])} :: p in storage ==> NoDup(storage[p]))
    && (forall j {:trigger Names(jobs, j, Queued)} :: j in queue ==> Names(jobs, j, Queued))
    && (forall p, j {:trigger Names(jobs, j, Stored(p))} ::
          p in storage && j in storage[p] ==> Names(jobs, j, Stored(p)))
    && (forall m {:trigger MachineNames(jobs, machines, m)} :: m in machines ==> MachineNames(jobs, machines, m))
    && (forall v {:trigger AgvNames(jobs, agvs, v)} :: v in agvs ==> AgvNames(jobs, agvs, v))
  }

  ghost predicate Names(jobs: Rows, j: JobId, loc: Location) {
    j in jobs && jobs[j].loc == loc
  }

  ghost predicate MachineNames(jobs: Rows, machines: Machines, m: MachineId)
    requires m in machines
  {
    machines[m].job.Some? ==> Names(jobs, machines[m].job.value, AtMachine(m))
  }

  ghost predicate AgvNames(jobs: Rows, agvs: Agvs, v: AgvId)
    requires v in agvs
  {
    agvs[v].job.Some? ==> Names(jobs, agvs[v].job.value, OnAgv(v))
  }

  /** The holder a row names does hold the job. */
  ghost predicate Located(jobs: Rows, queue: seq<JobId>, storage: Lists, machines: Machines, agvs: Agvs,
                          j: JobId)
    requires j in jobs
  {
    match jobs[j].loc
    case Queued => j in queue
    case Stored(p) => p in storage && j in storage[p]
    case AtMachine(m) => m in machines && machines[m].job == Some(j)
    case OnAgv(v) => v in agvs && agvs[v].job == Some(j)
  }

  ghost predicate Held(s: State) {
    Custodial(s.jobs, s.queue, s.storage, s.machines, s.agvs)
  }

  /** The holders are those of the scenario. */
  ghost predicate Shaped(c: Scenario, s: State) {
    && s.machines.Keys == c.machines.Keys && s.agvs.Keys == c.start.Keys && s.idleSince.Keys <= c.start.Keys
    && (forall p {:trigger KnownPlace(c, p)} :: p in s.storage <==> KnownPlace(c, p))
    && (forall j {:trigger KnownJob(c, j)} :: j in s.jobs ==> KnownJob(c, j))
  }

  ghost predicate KnownJob(c: Scenario, j: JobId) {
    j.demand in c.demands
  }

  // -- slots ------------------------------------------------------------------

  predicate HasRoom(c: Scenario, storage: Lists, p: Place)
    requires p.owner in c.buffers && p.slot in c.buffers[p.owner].capacity && p in storage
  {
    var cap := c.buffers[p.owner].capacity[p.slot];
    cap.None? || |storage[p]| < cap.value
  }

  ghost predicate FullPlace(c: Scenario, storage: Lists, p: Place)
    requires KnownPlace(c, p)
  {
    p in storage && !HasRoom(c, storage, p)
  }

  /** No slot of the buffer has room. */
  ghost predicate Crammed(c: Scenario, storage: Lists, b: BufferId) {
    forall k {:trigger FullPlace(c, storage, Place(b, k))} ::
      KnownPlace(c, Place(b, k)) ==> FullPlace(c, storage, Place(b, k))
  }

  function FirstRoom(c: Scenario, storage: Lists, owner: BufferId, slots: seq<SlotId>): (r: Option<SlotId>)
    requires owner in c.buffers
    requires forall k :: k in slots ==> k in c.buffers[owner].capacity && Place(owner, k) in storage
    ensures r.Some? ==> r.value in slots && HasRoom(c, storage, Place(owner, r.value))
    ensures r.None? ==> forall k {:trigger FullPlace(c, storage, Place(owner, k))} :: k in slots ==> FullPlace(c, storage, Place(owner, k))
  {
    if slots == [] then None
    else
      assert slots[0] in slots;
      if HasRoom(c, storage, Place(owner, slots[0])) then Some(slots[0])
      else FirstRoom(c, storage, owner, slots[1..])
  }

  /** `_free`: the first slot, in identifier order, with room. */
  function Free(c: Scenario, s: State, owner: BufferId): (r: Option<SlotId>)
    requires WellFormed(c) && Shaped(c, s) && owner in c.buffers
    ensures r.Some? ==> Place(owner, r.value) in s.storage && KnownPlace(c, Place(owner, r.value))
                        && HasRoom(c, s.storage, Place(owner, r.value))
    ensures r.None? <==> Crammed(c, s.storage, owner)
  {
    assert GoodBuffer(c, owner);
    assert forall k :: k in c.buffers[owner].capacity ==> Place(owner, k) in s.storage by {
      forall k | k in c.buffers[owner].capacity ensures Place(owner, k) in s.storage {
        assert KnownPlace(c, Place(owner, k));
      }
    }
    var r := FirstRoom(c, s.storage, owner, c.buffers[owner].sorted);
    assert r.Some? ==> KnownPlace(c, Place(owner, r.value)) && !FullPlace(c, s.storage, Place(owner, r.value));
    r
  }

  // -- custody through single changes ----------------------------------------------------------

  /** Custody can only be disturbed at `j`: everything the other jobs and their holders say is kept. */
  ghost predicate Elsewhere(jobs: Rows, queue: seq<JobId>, storage: Lists, machines: Machines, agvs: Agvs,
                            jobs': Rows, queue': seq<JobId>, storage': Lists, machines': Machines, agvs': Agvs, j: JobId)
  {
    && jobs'.Keys == jobs.Keys && storage'.Keys == storage.Keys && machines'.Keys == machines.Keys && agvs'.Keys == agvs.Keys
    && (forall i :: i in jobs && i != j ==> jobs'[i].loc == jobs[i].loc)
    && (forall i :: i != j ==> (i in queue' <==> i in queue))
    && (forall p, i :: p in storage && i != j ==> (i in storage'[p] <==> i in storage[p]))
    && (forall m :: m in machines ==> OnlyJob(machines[m].job, machines'[m].job, j))
    && (forall v :: v in agvs ==> OnlyJob(agvs[v].job, agvs'[v].job, j))
    && NoDup(queue') && (forall p :: p in storage' ==> NoDup(storage'[p]))
  }

  ghost predicate OnlyJob(a: Option<JobId>, b: Option<JobId>, j: JobId) {
    a == b || (a.None? && b == Some(j)) || (b.None? && a == Some(j))
  }

  /** Whatever holds `j` is what its row names. */
  ghost predicate Here(jobs: Rows, queue: seq<JobId>, storage: Lists, machines: Machines, agvs: Agvs, j: JobId) {
    && j in jobs && Located(jobs, queue, storage, machines, agvs, j)
    && (j in queue ==> jobs[j].loc == Queued)
    && (forall p :: p in storage && j in storage[p] ==> jobs[j].loc == Stored(p))
    && (forall m :: m in machines && machines[m].job == Some(j) ==> jobs[j].loc == AtMachine(m))
    && (forall v :: v in agvs && agvs[v].job == Some(j) ==> jobs[j].loc == OnAgv(v))
  }

  lemma HolderOf(jobs: Rows, queue: seq<JobId>, storage: Lists, machines: Machines, agvs: Agvs, j: JobId)
    requires Custodial(jobs, queue, storage, machines, agvs) && j in jobs
    ensures Here(jobs, queue, storage, machines, agvs, j)
    ensures NoDup(queue) && forall p :: p in storage ==> NoDup(storage[p])
  {
    assert Located(jobs, queue, storage, machines, agvs, j);
    assert j in queue ==> Names(jobs, j, Queued);
    forall p | p in storage && j in storage[p] ensures jobs[j].loc == Stored(p) {
      assert Names(jobs, j, Stored(p));
    }
    forall m | m in machines && machines[m].job == Some(j) ensures jobs[j].loc == AtMachine(m) {
      assert MachineNames(jobs, machines, m);
    }
    forall v | v in agvs && agvs[v].job == Some(j) ensures jobs[j].loc == OnAgv(v) {
      assert AgvNames(jobs, agvs, v);
    }
    forall p | p in storage ensures NoDup(storage[p]) {}
  }

  lemma Rehold(jobs: Rows, queue: seq<JobId>, storage: Lists, machines: Machines, agvs: Agvs,
               jobs': Rows, queue': seq<JobId>, storage': Lists, machines': Machines, agvs': Agvs, j: JobId)
    requires Custodial(jobs, queue, storage, machines, agvs)
    requires Elsewhere(jobs, queue, storage, machines, agvs, jobs', queue', storage', machines', agvs', j)
    requires Here(jobs', queue', storage', machines', agvs', j)
    ensures Custodial(jobs', queue', storage', machines', agvs')
  {
    forall i | i in jobs' ensures Located(jobs', queue', storage', machines', agvs', i) {
      if i != j { assert Located(jobs, queue, storage, machines, agvs, i); }
    }
    forall i | i in queue' ensures Names(jobs', i, Queued) {
      if i != j { assert Names(jobs, i, Queued); }
    }
    forall p, i | p in storage' && i in storage'[p] ensures Names(jobs', i, Stored(p)) {
      if i != j { assert Names(jobs, i, Stored(p)); }
    }
    forall m | m in machines' ensures MachineNames(jobs', machines', m) {
      assert MachineNames(jobs, machines, m);
    }
    forall v | v in agvs' ensures AgvNames(jobs', agvs', v) {
      assert AgvNames(jobs, agvs, v);
    }
  }

  lemma FrameHeld(jobs: Rows, queue: seq<JobId>, storage: Lists, machines: Machines, agvs: Agvs,
                  jobs': Rows, machines': Machines, agvs': Agvs)
    requires Custodial(jobs, queue, storage, machines, agvs)
    requires jobs'.Keys == jobs.Keys && forall j :: j in jobs ==> jobs'[j].loc == jobs[j].loc
    requires machines'.Keys == machines.Keys && forall m :: m in machines ==> machines'[m].job == machines[m].job
    requires agvs'.Keys == agvs.Keys && forall v :: v in agvs ==> agvs'[v].job == agvs[v].job
    ensures Custodial(jobs', queue, storage, machines', agvs')
  {
    forall j | j in jobs' ensures Located(jobs', queue, storage, machines', agvs', j) {
      assert Located(jobs, queue, storage, machines, agvs, j);
    }
    forall p, j | p in storage && j in storage[p] ensures Names(jobs', j, Stored(p)) {
      assert Names(jobs, j, Stored(p));
    }
    forall j | j in queue ensures Names(jobs', j, Queued) {
      assert Names(jobs, j, Queued);
    }
    forall m | m in machines' ensures MachineNames(jobs', machines', m) {
      assert MachineNames(jobs, machines, m);
    }
    forall v | v in agvs' ensures AgvNames(jobs', agvs', v) {
      assert AgvNames(jobs, agvs, v);
    }
  }

  lemma NewJobHeld(jobs: Rows, queue: seq<JobId>, storage: Lists, machines: Machines, agvs: Agvs, j: JobId, row: JobRow)
    requires Custodial(jobs, queue, storage, machines, agvs) && j !in jobs && row.loc == Queued
    ensures Custodial(jobs[j := row], queue + [j], storage, machines, agvs)
  {
    var jobs' := jobs[j := row];
    assert j !in queue by { assert j in queue ==> Names(jobs, j, Queued); }
    NoDupAppend(queue, j);
    forall i | i in jobs' ensures Located(jobs', queue + [j], storage, machines, agvs, i) {
      if i != j { assert Located(jobs, queue, storage, machines, agvs, i); }
    }
    forall i | i in queue + [j] ensures Names(jobs', i, Queued) {
      if i != j { assert Names(jobs, i, Queued); }
    }
    forall p, i | p in storage && i in storage[p] ensures Names(jobs', i, Stored(p)) {
      assert Names(jobs, i, Stored(p));
    }
    forall m | m in machines ensures MachineNames(jobs', machines, m) {
      assert MachineNames(jobs, machines, m);
    }
    forall v | v in agvs ensures AgvNames(jobs', agvs, v) {
      assert AgvNames(jobs, agvs, v);
    }
  }

  /** Queue to storage. */
  lemma AdmittedHeld(jobs: Rows, queue: seq<JobId>, storage: Lists, machines: Machines, agvs: Agvs,
                     j: JobId, row: JobRow, p: Place, rest: seq<JobId>)
    requires Custodial(jobs, queue, storage, machines, agvs)
    requires j in jobs && jobs[j].loc.Queued? && p in storage && row.loc == Stored(p)
    requires NoDup(rest) && j !in rest && forall i :: i in queue <==> i in rest || i == j
    ensures Custodial(jobs[j := row], rest, storage[p := storage[p] + [j]], machines, agvs)
  {
    HolderOf(jobs, queue, storage, machines, agvs, j);
    NoDupAppend(storage[p], j);
    Rehold(jobs, queue, storage, machines, agvs, jobs[j := row], rest, storage[p := storage[p] + [j]], machines, agvs, j);
  }

  /** Machine to storage. */
  lemma ReleasedHeld(jobs: Rows, queue: seq<JobId>, storage: Lists, machines: Machines, agvs: Agvs,
                     j: JobId, row: JobRow, m: MachineId, mr: MachineRow, p: Place)
    requires Custodial(jobs, queue, storage, machines, agvs)
    requires j in jobs && jobs[j].loc == AtMachine(m) && p in storage && row.loc == Stored(p)
    requires m in machines && machines[m].job == Some(j) && mr.job.None?
    ensures Custodial(jobs[j := row], queue, storage[p := storage[p] + [j]], machines[m := mr], agvs)
  {
    HolderOf(jobs, queue, storage, machines, agvs, j);
    NoDupAppend(storage[p], j);
    Rehold(jobs, queue, storage, machines, agvs,
           jobs[j := row], queue, storage[p := storage[p] + [j]], machines[m := mr], agvs, j);
  }

  /** Storage to machine. */
  lemma TakenHeld(jobs: Rows, queue: seq<JobId>, storage: Lists, machines: Machines, agvs: Agvs,
                  j: JobId, row: JobRow, m: MachineId, mr: MachineRow, p: Place)
    requires Custodial(jobs, queue, storage, machines, agvs)
    requires j in jobs && jobs[j].loc == Stored(p) && p in storage && row.loc == AtMachine(m)
    requires m in machines && machines[m].job.None? && mr.job == Some(j)
    ensures Custodial(jobs[j := row], queue, storage[p := Without(storage[p], j)], machines[m := mr], agvs)
  {
    HolderOf(jobs, queue, storage, machines, agvs, j);
    WithoutMeaning(storage[p], j);
    Rehold(jobs, queue, storage, machines, agvs,
           jobs[j := row], queue, storage[p := Without(storage[p], j)], machines[m := mr], agvs, j);
  }

  /** Storage to vehicle. */
  lemma LoadedHeld(jobs: Rows, queue: seq<JobId>, storage: Lists, machines: Machines, agvs: Agvs,
                   j: JobId, row: JobRow, v: AgvId, a: AgvRow, p: Place)
    requires Custodial(jobs, queue, storage, machines, agvs)
    requires j in jobs && jobs[j].loc == Stored(p) && p in storage && row.loc == OnAgv(v)
    requires v in agvs && agvs[v].job.None? && a.job == Some(j)
    ensures Custodial(jobs[j := row], queue, storage[p := Without(storage[p], j)], machines, agvs[v := a])
  {
    HolderOf(jobs, queue, storage, machines, agvs, j);
    WithoutMeaning(storage[p], j);
    Rehold(jobs, queue, storage, machines, agvs,
           jobs[j := row], queue, storage[p := Without(storage[p], j)], machines, agvs[v := a], j);
  }

  /** Vehicle to storage. */
  lemma UnloadedHeld(jobs: Rows, queue: seq<JobId>, storage: Lists, machines: Machines, agvs: Agvs,
                     j: JobId, row: JobRow, v: AgvId, a: AgvRow, p: Place)
    requires Custodial(jobs, queue, storage, machines, agvs)
    requires j in jobs && jobs[j].loc == OnAgv(v) && p in storage && row.loc == Stored(p)
    requires v in agvs && agvs[v].job == Some(j) && a.job.None?
    ensures Custodial(jobs[j := row], queue, storage[p := storage[p] + [j]], machines, agvs[v := a])
  {
    HolderOf(jobs, queue, storage, machines, agvs, j);
    NoDupAppend(storage[p], j);
    Rehold(jobs, queue, storage, machines, agvs,
           jobs[j := row], queue, storage[p := storage[p] + [j]], machines, agvs[v := a], j);
  }
}
