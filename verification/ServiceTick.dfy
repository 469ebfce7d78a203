/** What one tick of services does to every vehicle, job and demand, said from the state before: which
    tasks are withdrawn, which unloadings are interrupted, and where the other services leave their jobs. */
module ServiceTick {
  import opened Collections
  import opened Availability
  import opened Factory
  import opened Custody
  import opened Safety
  import opened Operations
  import opened Deliveries
  import opened Physics

  // -- outcomes --------------------------------------------------------------------------------

  /** The buffer belongs to a machine that the calendar says is down now. */
  ghost predicate StationDown(c: Scenario, tick: int, b: BufferId) {
    exists m :: m in c.machines && m in c.pre && m in c.post && (c.pre[m] == b || c.post[m] == b) && DownAt(c.outages, m, tick)
  }

  /** The buffer is the PRE of a machine that was down at the last boundary. */
  ghost predicate Flagged(c: Scenario, machines: Machines, b: BufferId) {
    exists m :: m in c.machines && m in c.pre && m in machines && c.pre[m] == b && machines[m].down
  }

  ghost predicate Withdrawn(c: Scenario, s: State, v: AgvId) {
    v in s.assignments && StationDown(c, s.tick, s.assignments[v].destination)
  }

  /** The vehicle is loading. */
  predicate Loads(s: State, v: AgvId) {
    v in s.agvs && s.agvs[v].service.Some? && s.agvs[v].service.value.kind.Pickup?
  }

  /** The vehicle is unloading. */
  predicate Unloads(s: State, v: AgvId) {
    v in s.agvs && s.agvs[v].service.Some? && s.agvs[v].service.value.kind.DropOff?
  }

  /** The task is withdrawn, or the station to unload into is down. */
  ghost predicate Stopped(c: Scenario, s: State, v: AgvId) {
    Withdrawn(c, s, v) || (Unloads(s, v) && StationDown(c, s.tick, s.agvs[v].service.value.place.owner))
  }

  ghost predicate PicksUp(c: Scenario, s: State, v: AgvId) {
    Loads(s, v) && !Stopped(c, s, v)
  }

  ghost predicate Delivers(c: Scenario, s: State, v: AgvId) {
    Unloads(s, v) && !Stopped(c, s, v)
  }

  /** The task goes on: neither withdrawn nor done, and its destination was not down at the last boundary. */
  ghost predicate GoesOn(c: Scenario, s: State, v: AgvId) {
    && v in s.agvs && v in s.assignments && !Stopped(c, s, v) && !Unloads(s, v)
    && (s.agvs[v].job.Some? || s.agvs[v].target.Some?) && !Flagged(c, s.machines, s.assignments[v].destination)
  }

  function JobAt(s: State, v: AgvId): JobId
    requires v in s.agvs && s.agvs[v].service.Some?
  {
    s.agvs[v].service.value.job
  }

  /** No vehicle serves any more. A stopped one keeps its job and has no target; a loading one has its job, an
      unloading one has none; a vehicle whose task goes on heads for its destination once it is loaded. */
  ghost predicate VehicleAfter(c: Scenario, s: State, t: State, v: AgvId)
    requires v in s.agvs && v in t.agvs
  {
    var a, b := s.agvs[v], t.agvs[v];
    && b.cell == a.cell && b.service.None?
    && b.job == (if PicksUp(c, s, v) then Some(a.service.value.job) else if Delivers(c, s, v) then None else a.job)
    && b.target == (if GoesOn(c, s, v) then (if a.job.Some? || PicksUp(c, s, v) then Some(s.assignments[v].destination) else a.target)
                    else if v in s.assignments || Stopped(c, s, v) || PicksUp(c, s, v) || Delivers(c, s, v) then None
                    else a.target)
    && (v in t.assignments <==> GoesOn(c, s, v)) && (v in t.assignments ==> t.assignments[v] == s.assignments[v])
  }

  /** A job that was loaded is on its vehicle and in no slot; a delivered one is in the place it was brought to,
      with its quality revealed if that is an Output; every other job is untouched. */
  ghost predicate JobAfter(c: Scenario, s: State, t: State, j: JobId)
    requires j in s.jobs && j in t.jobs
  {
    && (forall v :: PicksUp(c, s, v) && JobAt(s, v) == j ==>
          t.jobs[j] == s.jobs[j].(loc := OnAgv(v), since := s.tick) && forall p :: p in t.storage ==> j !in t.storage[p])
    && (forall v :: Delivers(c, s, v) && JobAt(s, v) == j ==>
          var p := s.agvs[v].service.value.place;
          && t.jobs[j] == s.jobs[j].(loc := Stored(p), since := s.tick, quality := t.jobs[j].quality, confirmed := t.jobs[j].confirmed)
          && p in t.storage && j in t.storage[p]
          && t.jobs[j].quality == (if !InOutput(c, Stored(p)) then s.jobs[j].quality else if s.jobs[j].defective then Failed else Passed))
    && ((forall v :: PicksUp(c, s, v) || Delivers(c, s, v) ==> JobAt(s, v) != j) ==> t.jobs[j] == s.jobs[j])
  }

  /** A vehicle delivers the demand's job into an Output. */
  ghost predicate ShipsNow(c: Scenario, s: State, v: AgvId, d: DemandId) {
    Delivers(c, s, v) && JobAt(s, v).demand == d && InOutput(c, Stored(s.agvs[v].service.value.place))
  }

  /** Exactly the demands delivered into an Output are shipped now, and they count as good without a defect. */
  ghost predicate DemandAfter(c: Scenario, s: State, t: State, d: DemandId) {
    && (d in t.ledger.shipped <==> d in s.ledger.shipped || exists v :: ShipsNow(c, s, v, d))
    && (d in t.ledger.shipped && d !in s.ledger.shipped ==> d in t.ledger.shipmentTimes && t.ledger.shipmentTimes[d] == s.tick)
    && (d in s.ledger.shipped && d in s.ledger.shipmentTimes ==> d in t.ledger.shipmentTimes && t.ledger.shipmentTimes[d] == s.ledger.shipmentTimes[d])
    && (d in t.ledger.good <==> d in s.ledger.good || exists v :: ShipsNow(c, s, v, d) && JobAt(s, v) in s.jobs && !s.jobs[JobAt(s, v)].defective)
  }

  /** One tick of services. */
  ghost predicate TickOfServices(c: Scenario, s: State, t: State) {
    && t.tick == s.tick && t.queue == s.queue && t.machines == s.machines && t.ledger.released == s.ledger.released
    && t.agvs.Keys == s.agvs.Keys && t.jobs.Keys == s.jobs.Keys && t.storage.Keys == s.storage.Keys && t.assignments.Keys <= s.agvs.Keys
    && (forall v {:trigger VehicleAfter(c, s, t, v)} :: v in s.agvs ==> VehicleAfter(c, s, t, v))
    && (forall j {:trigger JobAfter(c, s, t, j)} :: j in s.jobs ==> JobAfter(c, s, t, j))
    && (forall d {:trigger DemandAfter(c, s, t, d)} :: DemandAfter(c, s, t, d))
  }

  // -- giving up tasks -------------------------------------------------------------------------

  ghost predicate DroppedRow(s: State, u: State, given: set<AgvId>, v: AgvId)
    requires v in s.agvs && v in u.agvs
  {
    if v in given then u.agvs[v] == s.agvs[v].(target := None, service := None) && v !in u.assignments
    else u.agvs[v] == s.agvs[v] && (v in u.assignments <==> v in s.assignments) && (v in u.assignments ==> u.assignments[v] == s.assignments[v])
  }

  /** Exactly these vehicles have given up task, target and service. */
  ghost predicate Dropped(s: State, u: State, given: set<AgvId>) {
    && OnlyFleet(s, u) && u.agvs.Keys == s.agvs.Keys && u.assignments.Keys <= s.agvs.Keys
    && forall v {:trigger DroppedRow(s, u, given, v)} :: v in s.agvs ==> DroppedRow(s, u, given, v)
  }

  lemma NothingDropped(s: State)
    requires s.assignments.Keys <= s.agvs.Keys
    ensures Dropped(s, s, {})
  {
  }

  lemma CancelRow(c: Scenario, u: State, v: AgvId)
    requires v in u.agvs && (u.agvs[v].target.None? ==> u.agvs[v].service.None?)
    ensures var t := Cancel(c, u, v);
            && OnlyFleet(u, t) && t.agvs == u.agvs[v := u.agvs[v].(target := None, service := None)] && t.assignments == u.assignments - {v}
  {
    CancelTouched(c, u, v);
    if u.agvs[v].target.Some? {
      CancelledFields(c, u, v);
    } else {
      assert u.agvs[v].(target := None, service := None) == u.agvs[v];
      assert u.agvs[v := u.agvs[v]] == u.agvs;
    }
  }

  lemma DropOne(s: State, u: State, t: State, given: set<AgvId>, v: AgvId)
    requires Dropped(s, u, given) && v in u.agvs && OnlyFleet(u, t)
    requires t.agvs == u.agvs[v := u.agvs[v].(target := None, service := None)] && t.assignments == u.assignments - {v}
    ensures Dropped(s, t, given + {v})
  {
    forall w | w in s.agvs ensures DroppedRow(s, t, given + {v}, w) { assert DroppedRow(s, u, given, w); }
  }

  lemma CancelDrops(c: Scenario, s: State, u: State, given: set<AgvId>, v: AgvId)
    requires Dropped(s, u, given) && v in u.agvs && (u.agvs[v].target.None? ==> u.agvs[v].service.None?)
    ensures Dropped(s, Cancel(c, u, v), given + {v})
  {
    hide Dropped, Cancel;
    CancelRow(c, u, v);
    DropOne(s, u, Cancel(c, u, v), given, v);
  }

  lemma SameGiven(s: State, u: State, given: set<AgvId>, same: set<AgvId>)
    requires Dropped(s, u, given) && forall v :: v in s.agvs ==> (v in given <==> v in same)
    ensures Dropped(s, u, same)
  {
    forall v | v in s.agvs ensures DroppedRow(s, u, same, v) { assert DroppedRow(s, u, given, v); }
  }

  /** The station of the calendar lookup is that of the buffer's role. */
  lemma DownOwnerMeans(c: Scenario, tick: int, b: BufferId)
    requires WellFormed(c)
    ensures DownOwner(c, tick, b) <==> StationDown(c, tick, b)
  {
    if b in c.buffers { assert GoodBuffer(c, b); }
    forall m | m in c.machines && m in c.pre && m in c.post && (c.pre[m] == b || c.post[m] == b) ensures b in c.buffers && Station(c, b) == Some(m) {
      assert GoodMachine(c, m);
    }
    if DownOwner(c, tick, b) { assert GoodMachine(c, Station(c, b).value); }
  }

  // -- withdrawing and interrupting ------------------------------------------------------------

  /** The vehicles of the list whose task is withdrawn. */
  ghost function WithdrawnOf(c: Scenario, s: State, q: seq<AgvId>): set<AgvId> {
    set v | v in q && v in s.agvs && Withdrawn(c, s, v)
  }

  lemma ServingHeads(c: Scenario, s: State, v: AgvId)
    requires WellFormed(c) && Inv(c, s) && v in s.agvs
    ensures s.agvs[v].target.None? ==> s.agvs[v].service.None?
  {
    assert VehicleOk(c, s.jobs, s.agvs[v]);
  }

  lemma WithdrawStep(c: Scenario, s: State, u: State, t: State, done: seq<AgvId>, v: AgvId)
    requires WellFormed(c) && Dropped(s, u, WithdrawnOf(c, s, done)) && v in u.agvs && v !in done
    requires u.agvs[v].target.None? ==> u.agvs[v].service.None?
    requires t == if v in u.assignments && DownOwner(c, u.tick, u.assignments[v].destination) then Cancel(c, u, v) else u
    ensures Dropped(s, t, WithdrawnOf(c, s, done + [v]))
  {
    hide *;
    WithdrawnLater(c, s, u, done, v);
    WithdrawnMore(c, s, done, v);
    if Withdrawn(c, s, v) { CancelDrops(c, s, u, WithdrawnOf(c, s, done), v); }
  }

  lemma WithdrawnMore(c: Scenario, s: State, done: seq<AgvId>, v: AgvId)
    requires v in s.agvs
    ensures WithdrawnOf(c, s, done + [v]) == if Withdrawn(c, s, v) then WithdrawnOf(c, s, done) + {v} else WithdrawnOf(c, s, done)
  {
    hide Withdrawn;
    assert forall x :: x in done + [v] <==> x in done || x == v;
  }

  lemma WithdrawParts(c: Scenario, q: seq<AgvId>, s: State, n: nat)
    requires WellFormed(c) && Inv(c, s) && InTurn(c, q) && n < |q|
    ensures var u, v := Withdraw(c, q, s, n), q[n];
            && v in u.agvs && (u.agvs[v].target.None? ==> u.agvs[v].service.None?) && v !in q[..n]
            && Withdraw(c, q, s, n + 1) == if v in u.assignments && DownOwner(c, u.tick, u.assignments[v].destination) then Cancel(c, u, v) else u
  {
    hide Inv, WellFormed, OnlyFleet, NoServices, NoneDown, AllFirm, FleetWithdraw, VehiclesListed, DownOwner, Cancel;
    WithdrawNext(c, q, s, n);
    TurnDistinct(c, q, n);
    ServingHeads(c, Withdraw(c, q, s, n), q[n]);
  }

  lemma {:induction false} WithdrawDrops(c: Scenario, q: seq<AgvId>, s: State, n: nat)
    requires WellFormed(c) && Inv(c, s) && InTurn(c, q) && n <= |q| && s.assignments.Keys <= s.agvs.Keys
    ensures Dropped(s, Withdraw(c, q, s, n), WithdrawnOf(c, s, q[..n]))
  {
    hide *;
    if n == 0 {
      WithdrawFirst(c, q, s);
      NothingDropped(s);
      NobodyWithdrawn(c, s, q[..0]);
    } else {
      WithdrawDrops(c, q, s, n - 1);
      WithdrawParts(c, q, s, n - 1);
      WithdrawStep(c, s, Withdraw(c, q, s, n - 1), Withdraw(c, q, s, n), q[..n - 1], q[n - 1]);
      assert q[..n] == q[..n - 1] + [q[n - 1]];
    }
  }

  lemma NobodyWithdrawn(c: Scenario, s: State, done: seq<AgvId>)
    requires done == []
    ensures WithdrawnOf(c, s, done) == {}
  {
  }

  lemma TurnDistinct(c: Scenario, q: seq<AgvId>, n: nat)
    requires InTurn(c, q) && n < |q|
    ensures q[n] !in q[..n]
  {
    forall k | 0 <= k < n ensures q[k] != q[n] { NoDupIndex(q, k, n); }
  }

  /** A vehicle that was not visited yet still has its task. */
  lemma WithdrawnLater(c: Scenario, s: State, u: State, done: seq<AgvId>, v: AgvId)
    requires WellFormed(c) && Dropped(s, u, WithdrawnOf(c, s, done)) && v in u.agvs && v !in done
    ensures v in s.agvs && (v in u.assignments && DownOwner(c, u.tick, u.assignments[v].destination) <==> Withdrawn(c, s, v))
  {
    hide WellFormed, StationDown, DownOwner;
    assert DroppedRow(s, u, WithdrawnOf(c, s, done), v);
    if v in s.assignments { DownOwnerMeans(c, s.tick, s.assignments[v].destination); }
  }

  ghost function StoppedOf(c: Scenario, s: State, ids: seq<AgvId>): set<AgvId> {
    set v | v in s.agvs && (Withdrawn(c, s, v) || (v in ids && Stopped(c, s, v)))
  }

  /** Unloading vehicles whose task was not withdrawn are still unloading when it is their turn. */
  lemma InterruptLater(c: Scenario, s: State, u: State, done: seq<AgvId>, v: AgvId)
    requires WellFormed(c) && Dropped(s, u, StoppedOf(c, s, done)) && v in u.agvs && v !in done
    ensures v in s.agvs
    ensures var x := u.agvs[v].service;
            x.Some? && x.value.kind.DropOff? && DownOwner(c, u.tick, x.value.place.owner) <==> !Withdrawn(c, s, v) && Stopped(c, s, v)
  {
    hide WellFormed, StationDown, DownOwner;
    assert DroppedRow(s, u, StoppedOf(c, s, done), v);
    if Unloads(s, v) { DownOwnerMeans(c, s.tick, s.agvs[v].service.value.place.owner); }
  }

  lemma InterruptStep(c: Scenario, s: State, u: State, t: State, done: seq<AgvId>, v: AgvId)
    requires WellFormed(c) && Dropped(s, u, StoppedOf(c, s, done)) && v in u.agvs && v !in done
    requires u.agvs[v].target.None? ==> u.agvs[v].service.None?
    requires var x := u.agvs[v].service;
             t == if x.Some? && x.value.kind.DropOff? && DownOwner(c, u.tick, x.value.place.owner) then Cancel(c, u, v) else u
    ensures Dropped(s, t, StoppedOf(c, s, done + [v]))
  {
    hide *;
    InterruptLater(c, s, u, done, v);
    StoppedMore(c, s, done, v);
    if !Withdrawn(c, s, v) && Stopped(c, s, v) { CancelDrops(c, s, u, StoppedOf(c, s, done), v); }
  }

  lemma StoppedMore(c: Scenario, s: State, done: seq<AgvId>, v: AgvId)
    requires v in s.agvs
    ensures StoppedOf(c, s, done + [v]) == if !Withdrawn(c, s, v) && Stopped(c, s, v) then StoppedOf(c, s, done) + {v} else StoppedOf(c, s, done)
  {
    hide Withdrawn, Stopped;
    assert forall x :: x in done + [v] <==> x in done || x == v;
  }

  lemma InterruptParts(c: Scenario, s: State, n: nat)
    requires WellFormed(c) && Inv(c, s) && n < |c.agvIds|
    ensures var u, v := Interrupt(c, s, n), c.agvIds[n];
            && v in u.agvs && (u.agvs[v].target.None? ==> u.agvs[v].service.None?) && v !in c.agvIds[..n]
            && var x := u.agvs[v].service;
               Interrupt(c, s, n + 1) == if x.Some? && x.value.kind.DropOff? && DownOwner(c, u.tick, x.value.place.owner) then Cancel(c, u, v) else u
  {
    assert c.agvIds[n] in SetOf(c.agvIds);
    ServingHeads(c, Interrupt(c, s, n), c.agvIds[n]);
    forall k | 0 <= k < n ensures c.agvIds[k] != c.agvIds[n] { NoDupIndex(c.agvIds, k, n); }
    hide SameShop, NoServices, DownOwner, Cancel;
  }

  lemma InterruptFirst(c: Scenario, s: State)
    requires WellFormed(c) && Inv(c, s)
    ensures Interrupt(c, s, 0) == s
  {
  }

  /** `s` is the state before withdrawals and `w` the one after them. */
  lemma {:induction false} InterruptDrops(c: Scenario, s: State, w: State, n: nat)
    requires WellFormed(c) && Inv(c, w) && n <= |c.agvIds| && Dropped(s, w, StoppedOf(c, s, []))
    ensures Dropped(s, Interrupt(c, w, n), StoppedOf(c, s, c.agvIds[..n]))
  {
    hide *;
    if n == 0 {
      InterruptFirst(c, w);
      assert c.agvIds[..0] == [];
    } else {
      InterruptDrops(c, s, w, n - 1);
      InterruptParts(c, w, n - 1);
      InterruptStep(c, s, Interrupt(c, w, n - 1), Interrupt(c, w, n), c.agvIds[..n - 1], c.agvIds[n - 1]);
      assert c.agvIds[..n] == c.agvIds[..n - 1] + [c.agvIds[n - 1]];
    }
  }

  // -- finishing services ----------------------------------------------------------------------

  function Rested(a: AgvRow): AgvRow {
    if a.service.None? then a
    else a.(job := if a.service.value.kind.Pickup? then Some(a.service.value.job) else None, service := None, target := None)
  }

  ghost predicate RowServed(w: State, u: State, done: set<AgvId>, v: AgvId)
    requires v in w.agvs && v in u.agvs
  {
    u.agvs[v] == if v in done then Rested(w.agvs[v]) else w.agvs[v]
  }

  function Brought(c: Scenario, r: JobRow, p: Place, tick: int): JobRow {
    if InOutput(c, Stored(p)) then r.(loc := Stored(p), since := tick, quality := if r.defective then Failed else Passed, confirmed := r.confirmed || r.defective)
    else r.(loc := Stored(p), since := tick)
  }

  ghost predicate JobServed(c: Scenario, w: State, u: State, done: set<AgvId>, j: JobId)
    requires j in w.jobs && j in u.jobs
  {
    && (forall v :: v in done && Loads(w, v) && JobAt(w, v) == j ==> u.jobs[j] == w.jobs[j].(loc := OnAgv(v), since := w.tick))
    && (forall v :: v in done && Unloads(w, v) && JobAt(w, v) == j ==> u.jobs[j] == Brought(c, w.jobs[j], w.agvs[v].service.value.place, w.tick))
    && ((forall v :: v in done && v in w.agvs && w.agvs[v].service.Some? ==> JobAt(w, v) != j) ==> u.jobs[j] == w.jobs[j])
  }

  ghost predicate Ends(c: Scenario, w: State, v: AgvId, d: DemandId) {
    Unloads(w, v) && JobAt(w, v).demand == d && InOutput(c, Stored(w.agvs[v].service.value.place))
  }

  ghost predicate DemandServed(c: Scenario, w: State, u: State, done: set<AgvId>, d: DemandId) {
    && (d in u.ledger.shipped <==> d in w.ledger.shipped || exists v :: v in done && Ends(c, w, v, d))
    && (d in u.ledger.good <==> d in w.ledger.good || exists v :: v in done && Ends(c, w, v, d) && JobAt(w, v) in w.jobs && !w.jobs[JobAt(w, v)].defective)
  }

  /** The services of these vehicles are finished. */
  ghost predicate ServedBy(c: Scenario, w: State, u: State, done: set<AgvId>) {
    && u.tick == w.tick && u.queue == w.queue && u.machines == w.machines && u.assignments == w.assignments
    && u.agvs.Keys == w.agvs.Keys && u.jobs.Keys == w.jobs.Keys && u.storage.Keys == w.storage.Keys
    && (forall v {:trigger RowServed(w, u, done, v)} :: v in w.agvs ==> RowServed(w, u, done, v))
    && (forall j {:trigger JobServed(c, w, u, done, j)} :: j in w.jobs ==> JobServed(c, w, u, done, j))
    && (forall d {:trigger DemandServed(c, w, u, done, d)} :: DemandServed(c, w, u, done, d))
  }

  /** No two vehicles serve the same job. */
  lemma OwnJobs(c: Scenario, w: State, v: AgvId, x: AgvId)
    requires WellFormed(c) && Inv(c, w) && v in w.agvs && x in w.agvs && v != x && w.agvs[v].service.Some? && w.agvs[x].service.Some?
    ensures JobAt(w, v) != JobAt(w, x) && JobAt(w, v) in w.jobs
  {
    assert VehicleOk(c, w.jobs, w.agvs[v]) && VehicleOk(c, w.jobs, w.agvs[x]);
    assert Compatible(w.agvs[v], w.agvs[x]);
    assert AgvNames(w.jobs, w.agvs, v) && AgvNames(w.jobs, w.agvs, x);
  }

  lemma PickUpRows(u: State, v: AgvId, j: JobId, p: Place)
    requires v in u.agvs && j in u.jobs && p in u.storage
    ensures var t := PickUp(u, v, j, p);
            && t.tick == u.tick && t.queue == u.queue && t.machines == u.machines && t.assignments == u.assignments && t.ledger == u.ledger
            && t.storage.Keys == u.storage.Keys && t.agvs == u.agvs[v := u.agvs[v].(job := Some(j), service := None, target := None)]
            && t.jobs == u.jobs[j := u.jobs[j].(loc := OnAgv(v), since := u.tick)]
  {
  }

  /** The job is last in its place and the vehicle free; in an Output its demand is shipped now, as a good one
      exactly if the job has no defect, and its quality is revealed accordingly. */
  ghost predicate Unloaded(c: Scenario, u: State, t: State, v: AgvId, j: JobId, p: Place) {
    && v in u.agvs && j in u.jobs && p in u.storage && p in t.storage
    && t.tick == u.tick && t.queue == u.queue && t.machines == u.machines && t.assignments == u.assignments && t.idleSince == u.idleSince
    && t.storage == u.storage[p := u.storage[p] + [j]] && t.agvs == u.agvs[v := u.agvs[v].(job := None, service := None, target := None)]
    && t.jobs == u.jobs[j := Brought(c, u.jobs[j], p, u.tick)]
    && t.ledger.released == u.ledger.released && t.ledger.attempts == u.ledger.attempts
    && t.ledger.shipped == u.ledger.shipped + (if InOutput(c, Stored(p)) then {j.demand} else {})
    && t.ledger.shipmentTimes == (if InOutput(c, Stored(p)) then u.ledger.shipmentTimes[j.demand := u.tick] else u.ledger.shipmentTimes)
    && t.ledger.good == u.ledger.good + (if InOutput(c, Stored(p)) && !u.jobs[j].defective then {j.demand} else {})
  }

  lemma DeliverRows(c: Scenario, u: State, v: AgvId, j: JobId, p: Place)
    requires v in u.agvs && j in u.jobs && p in u.storage && p.owner in c.buffers
    ensures Unloaded(c, u, Deliver(c, u, v, j, p), v, j, p)
  {
    if InOutput(c, Stored(p)) { ShipRows(u, j); }
    UnloadRows(if InOutput(c, Stored(p)) then Ship(u, j) else u, v, j, p);
    hide Ship, Unload;
  }

  lemma ShipRows(u: State, j: JobId)
    requires j in u.jobs
    ensures var t, r := Ship(u, j), u.jobs[j];
            && t == u.(ledger := t.ledger, jobs := t.jobs, log := t.log)
            && t.jobs == u.jobs[j := r.(quality := if r.defective then Failed else Passed, confirmed := r.confirmed || r.defective)]
            && t.ledger.released == u.ledger.released && t.ledger.attempts == u.ledger.attempts && t.ledger.shipped == u.ledger.shipped + {j.demand}
            && t.ledger.shipmentTimes == u.ledger.shipmentTimes[j.demand := u.tick]
            && t.ledger.good == u.ledger.good + if r.defective then {} else {j.demand}
  {
  }

  lemma UnloadRows(u: State, v: AgvId, j: JobId, p: Place)
    requires v in u.agvs && j in u.jobs && p in u.storage
    ensures var t := Unload(u, v, j, p);
            && t == u.(storage := t.storage, jobs := t.jobs, agvs := t.agvs, log := t.log)
            && t.storage == u.storage[p := u.storage[p] + [j]] && t.agvs == u.agvs[v := u.agvs[v].(job := None, service := None, target := None)]
            && t.jobs == u.jobs[j := u.jobs[j].(loc := Stored(p), since := u.tick)]
  {
  }

  /** Every other vehicle that serves does not serve this one's job. */
  ghost predicate OnlyServer(w: State, v: AgvId) {
    && v in w.agvs && w.agvs[v].service.Some? && JobAt(w, v) in w.jobs
    && forall x :: x in w.agvs && x != v && w.agvs[x].service.Some? ==> JobAt(w, x) != JobAt(w, v)
  }

  lemma UnservedYet(c: Scenario, w: State, u: State, done: set<AgvId>, v: AgvId)
    requires OnlyServer(w, v) && v !in done && JobAt(w, v) in u.jobs && JobServed(c, w, u, done, JobAt(w, v))
    ensures u.jobs[JobAt(w, v)] == w.jobs[JobAt(w, v)]
  {
  }

  lemma ServeJob(c: Scenario, w: State, u: State, t: State, done: set<AgvId>, v: AgvId, j: JobId)
    requires OnlyServer(w, v) && v !in done && j in w.jobs && j in u.jobs && j in t.jobs && JobServed(c, w, u, done, j)
    requires t.jobs[j] == if j != JobAt(w, v) then u.jobs[j]
                          else if Loads(w, v) then w.jobs[j].(loc := OnAgv(v), since := w.tick)
                          else Brought(c, w.jobs[j], w.agvs[v].service.value.place, w.tick)
    ensures JobServed(c, w, t, done + {v}, j)
  {
    if forall x :: x in done + {v} && x in w.agvs && w.agvs[x].service.Some? ==> JobAt(w, x) != j {
      assert v in done + {v};
      assert forall x :: x in done && x in w.agvs && w.agvs[x].service.Some? ==> x in done + {v};
    }
    if j == JobAt(w, v) { UnservedYet(c, w, u, done, v); }
  }

  lemma ServeDemand(c: Scenario, w: State, u: State, t: State, done: set<AgvId>, v: AgvId, d: DemandId)
    requires v in w.agvs && v !in done && DemandServed(c, w, u, done, d)
    requires d in t.ledger.shipped <==> d in u.ledger.shipped || Ends(c, w, v, d)
    requires d in t.ledger.good <==> d in u.ledger.good || (Ends(c, w, v, d) && JobAt(w, v) in w.jobs && !w.jobs[JobAt(w, v)].defective)
    ensures DemandServed(c, w, t, done + {v}, d)
  {
    hide Ends;
    if Ends(c, w, v, d) { assert v in done + {v}; }
    forall x | x in done && Ends(c, w, x, d) ensures x in done + {v} {}
  }

  lemma ServeRow(w: State, u: State, t: State, done: set<AgvId>, v: AgvId, x: AgvId)
    requires v in w.agvs && v !in done && x in w.agvs && x in u.agvs && x in t.agvs && RowServed(w, u, done, x)
    requires t.agvs[x] == if x == v then Rested(w.agvs[v]) else u.agvs[x]
    ensures RowServed(w, t, done + {v}, x)
  {
  }

  /** A vehicle without a service has nothing to finish. */
  lemma ServeNothing(c: Scenario, w: State, u: State, done: set<AgvId>, v: AgvId)
    requires ServedBy(c, w, u, done) && v in w.agvs && w.agvs[v].service.None?
    ensures ServedBy(c, w, u, done + {v})
  {
    forall x | x in w.agvs ensures RowServed(w, u, done + {v}, x) { assert RowServed(w, u, done, x); }
    forall j | j in w.jobs ensures JobServed(c, w, u, done + {v}, j) {
      assert JobServed(c, w, u, done, j);
      if forall x :: x in done + {v} && x in w.agvs && w.agvs[x].service.Some? ==> JobAt(w, x) != j {
        assert forall x :: x in done && x in w.agvs && w.agvs[x].service.Some? ==> x in done + {v};
      }
    }
    forall d ensures DemandServed(c, w, u, done + {v}, d) {
      assert DemandServed(c, w, u, done, d);
      forall x | x in done + {v} && Ends(c, w, x, d) ensures x in done {}
      forall x | x in done && Ends(c, w, x, d) ensures x in done + {v} {}
    }
  }

  /** What finishing one service changes. */
  ghost predicate Finished(c: Scenario, w: State, u: State, t: State, v: AgvId) {
    && v in w.agvs && w.agvs[v].service.Some? && v in u.agvs && JobAt(w, v) in w.jobs && JobAt(w, v) in u.jobs
    && t.tick == u.tick && t.queue == u.queue && t.machines == u.machines && t.assignments == u.assignments && t.storage.Keys == u.storage.Keys
    && t.agvs == u.agvs[v := Rested(w.agvs[v])]
    && t.jobs == u.jobs[JobAt(w, v) := if Loads(w, v) then w.jobs[JobAt(w, v)].(loc := OnAgv(v), since := w.tick)
                                       else Brought(c, w.jobs[JobAt(w, v)], w.agvs[v].service.value.place, w.tick)]
    && (forall d :: d in t.ledger.shipped <==> d in u.ledger.shipped || Ends(c, w, v, d))
    && (forall d :: d in t.ledger.good <==> d in u.ledger.good || (Ends(c, w, v, d) && !w.jobs[JobAt(w, v)].defective))
  }

  lemma ServeOne(c: Scenario, w: State, u: State, t: State, done: set<AgvId>, v: AgvId)
    requires ServedBy(c, w, u, done) && OnlyServer(w, v) && v !in done && Finished(c, w, u, t, v)
    ensures ServedBy(c, w, t, done + {v})
  {
    hide OnlyServer, RowServed, JobServed, DemandServed, Ends, Rested, Brought;
    forall x | x in w.agvs ensures RowServed(w, t, done + {v}, x) { ServeRow(w, u, t, done, v, x); }
    forall j | j in w.jobs ensures JobServed(c, w, t, done + {v}, j) { ServeJob(c, w, u, t, done, v, j); }
    forall d ensures DemandServed(c, w, t, done + {v}, d) {
      assert DemandServed(c, w, u, done, d);
      ServeDemand(c, w, u, t, done, v, d);
    }
  }

  lemma ServiceKnown(c: Scenario, w: State, v: AgvId)
    requires WellFormed(c) && Inv(c, w) && v in w.agvs && w.agvs[v].service.Some?
    ensures JobAt(w, v) in w.jobs && w.agvs[v].service.value.place in w.storage && w.agvs[v].service.value.place.owner in c.buffers
  {
    assert VehicleOk(c, w.jobs, w.agvs[v]) && KnownPlace(c, w.agvs[v].service.value.place);
  }

  lemma CompleteCases(c: Scenario, u: State, v: AgvId)
    requires WellFormed(c) && Inv(c, u) && v in u.agvs && u.agvs[v].service.Some?
    ensures var x := u.agvs[v].service.value;
            && x.job in u.jobs && x.place in u.storage && x.place.owner in c.buffers
            && Complete(c, u, v) == if x.kind.Pickup? then PickUp(u, v, x.job, x.place) else Deliver(c, u, v, x.job, x.place)
  {
    ServiceKnown(c, u, v);
  }

  lemma ServesAlone(c: Scenario, w: State, v: AgvId)
    requires WellFormed(c) && Inv(c, w) && v in w.agvs && w.agvs[v].service.Some?
    ensures OnlyServer(w, v)
  {
    ServiceKnown(c, w, v);
    hide Inv, WellFormed;
    forall x | x in w.agvs && x != v && w.agvs[x].service.Some? ensures JobAt(w, x) != JobAt(w, v) { OwnJobs(c, w, v, x); }
  }

  lemma TransferFinishes(c: Scenario, w: State, u: State, t: State, v: AgvId)
    requires v in w.agvs && v in u.agvs && u.agvs[v] == w.agvs[v] && w.agvs[v].service.Some? && u.tick == w.tick
    requires JobAt(w, v) in w.jobs && JobAt(w, v) in u.jobs && u.jobs[JobAt(w, v)] == w.jobs[JobAt(w, v)]
    requires var x := w.agvs[v].service.value;
             && x.place in u.storage && x.place.owner in c.buffers
             && t == if x.kind.Pickup? then PickUp(u, v, x.job, x.place) else Deliver(c, u, v, x.job, x.place)
    ensures Finished(c, w, u, t, v)
  {
    var j, p := JobAt(w, v), w.agvs[v].service.value.place;
    hide Deliver, PickUp, Brought;
    if Loads(w, v) { PickUpRows(u, v, j, p); } else { DeliverRows(c, u, v, j, p); }
  }

  /** `Complete` finishes so. */
  lemma CompleteFinishes(c: Scenario, w: State, u: State, done: set<AgvId>, v: AgvId)
    requires WellFormed(c) && Inv(c, w) && Inv(c, u) && ServedBy(c, w, u, done) && v in w.agvs && v !in done && w.agvs[v].service.Some?
    ensures v in u.agvs && OnlyServer(w, v) && Finished(c, w, u, Complete(c, u, v), v)
  {
    hide WellFormed, Inv, Complete, OnlyServer, Finished, Deliver, PickUp;
    ServesAlone(c, w, v);
    ServiceKnown(c, w, v);
    assert RowServed(w, u, done, v) && JobServed(c, w, u, done, JobAt(w, v));
    UnservedYet(c, w, u, done, v);
    CompleteCases(c, u, v);
    TransferFinishes(c, w, u, Complete(c, u, v), v);
  }

  // -- all services ----------------------------------------------------------------------------

  lemma ServedNobody(c: Scenario, w: State)
    ensures ServedBy(c, w, w, {})
  {
  }

  lemma CompletesFirst(c: Scenario, w: State)
    requires WellFormed(c) && Inv(c, w)
    ensures Completes(c, w, 0) == w
  {
  }

  lemma InList(c: Scenario, s: State, n: nat)
    requires WellFormed(c) && Inv(c, s) && n < |c.agvIds|
    ensures c.agvIds[n] in s.agvs && c.agvIds[n] !in c.agvIds[..n]
  {
    assert c.agvIds[n] in SetOf(c.agvIds);
    forall k | 0 <= k < n ensures c.agvIds[k] != c.agvIds[n] { NoDupIndex(c.agvIds, k, n); }
  }

  lemma CompletesNext(c: Scenario, w: State, n: nat)
    requires WellFormed(c) && Inv(c, w) && n < |c.agvIds|
    ensures var u, v := Completes(c, w, n), c.agvIds[n];
            v in u.agvs && v in w.agvs && v !in c.agvIds[..n] && Completes(c, w, n + 1) == Complete(c, u, v)
  {
    hide WellFormed, Inv, SameShop, NoServices, Deliveries.Ships, Complete;
    InList(c, w, n);
    InList(c, Completes(c, w, n), n);
  }

  lemma CompleteIdles(c: Scenario, u: State, v: AgvId)
    requires WellFormed(c) && Inv(c, u) && v in u.agvs && u.agvs[v].service.None?
    ensures Complete(c, u, v) == u
  {
  }

  lemma {:induction false} CompletesServe(c: Scenario, w: State, n: nat)
    requires WellFormed(c) && Inv(c, w) && n <= |c.agvIds|
    ensures ServedBy(c, w, Completes(c, w, n), SetOf(c.agvIds[..n]))
  {
    hide *;
    if n == 0 {
      CompletesFirst(c, w);
      ServedNobody(c, w);
      assert SetOf(c.agvIds[..0]) == {};
    } else {
      CompletesServe(c, w, n - 1);
      CompletesNext(c, w, n - 1);
      var u, v, done := Completes(c, w, n - 1), c.agvIds[n - 1], SetOf(c.agvIds[..n - 1]);
      assert c.agvIds[..n] == c.agvIds[..n - 1] + [v];
      assert SetOf(c.agvIds[..n]) == done + {v};
      RowYet(c, w, u, done, v);
      if w.agvs[v].service.None? {
        CompleteIdles(c, u, v);
        ServeNothing(c, w, u, done, v);
      } else {
        CompleteFinishes(c, w, u, done, v);
        ServeOne(c, w, u, Complete(c, u, v), done, v);
      }
    }
  }

  lemma RowYet(c: Scenario, w: State, u: State, done: set<AgvId>, v: AgvId)
    requires ServedBy(c, w, u, done) && v in w.agvs && v !in done
    ensures v in u.agvs && u.agvs[v] == w.agvs[v]
  {
    assert RowServed(w, u, done, v);
  }

  // -- reconciling -----------------------------------------------------------------------------

  /** What becomes of the task of a vehicle that serves no more. */
  ghost predicate TaskRow(c: Scenario, x: State, y: State, v: AgvId)
    requires v in x.agvs && v in y.agvs
  {
    var a, b := x.agvs[v], y.agvs[v];
    if v !in x.assignments then b == a && v !in y.assignments
    else if a.job.None? && a.target.None? then b == a && v !in y.assignments
    else if Flagged(c, x.machines, x.assignments[v].destination) then b == a.(target := None, service := None) && v !in y.assignments
    else
      && v in y.assignments && y.assignments[v] == x.assignments[v]
      && b == a.(target := if a.job.Some? then Some(x.assignments[v].destination) else a.target, arrivedAt := b.arrivedAt)
  }

  ghost predicate SameRow(x: State, y: State, v: AgvId)
    requires v in x.agvs && v in y.agvs
  {
    y.agvs[v] == x.agvs[v] && (v in y.assignments <==> v in x.assignments) && (v in y.assignments ==> y.assignments[v] == x.assignments[v])
  }

  ghost predicate TaskRowIf(c: Scenario, x: State, y: State, done: bool, v: AgvId)
    requires v in x.agvs && v in y.agvs
  {
    if done then TaskRow(c, x, y, v) else SameRow(x, y, v)
  }

  ghost predicate Tasked(c: Scenario, x: State, y: State, done: set<AgvId>) {
    && OnlyFleet(x, y) && y.agvs.Keys == x.agvs.Keys && y.assignments.Keys <= x.agvs.Keys
    && forall v {:trigger TaskRowIf(c, x, y, v in done, v)} :: v in x.agvs ==> TaskRowIf(c, x, y, v in done, v)
  }

  lemma EligibleMeans(c: Scenario, x: State, b: BufferId)
    requires WellFormed(c) && Shaped(c, x) && b in c.buffers && (c.buffers[b].role.Pre? || c.buffers[b].role.Output?)
    ensures Eligible(c, x, b) <==> !Flagged(c, x.machines, b)
  {
    assert GoodBuffer(c, b);
    forall m | m in c.machines && m in c.pre && c.pre[m] == b ensures c.buffers[b].role == Pre(m) { assert GoodMachine(c, m); }
  }

  /** What the invariant says about an assigned vehicle. */
  lemma TaskFacts(c: Scenario, u: State, v: AgvId)
    requires WellFormed(c) && Inv(c, u) && v in u.agvs && v in u.assignments
    ensures Shaped(c, u)
    ensures var a, k := u.agvs[v], u.assignments[v];
            && k.job in u.jobs && k.destination in c.buffers && (a.target.None? ==> a.service.None?)
            && (a.job.Some? ==> a.job == Some(k.job) && a.target in {None, Some(k.destination)})
            && (a.job.None? && a.target.None? ==> u.jobs[k.job].loc.Stored? && u.jobs[k.job].loc.place.owner == k.destination)
            && (a.job.None? && a.target.Some? ==> u.jobs[k.job].loc.Stored? && u.jobs[k.job].loc.place.owner != k.destination)
            && (a.job.Some? || a.target.Some? ==> c.buffers[k.destination].role.Pre? || c.buffers[k.destination].role.Output?)
  {
    assert AssignmentOk(c, u.jobs, u.agvs[v], u.assignments[v]) && VehicleOk(c, u.jobs, u.agvs[v]);
  }

  /** `Reconcile` case by case. */
  lemma ReconcileIs(c: Scenario, u: State, v: AgvId)
    requires WellFormed(c) && Inv(c, u) && v in u.agvs && Shaped(c, u)
    requires v in u.assignments ==> u.assignments[v].job in u.jobs && u.assignments[v].destination in c.buffers
    ensures var t := Reconcile(c, u, v);
            if v !in u.assignments then t == u
            else
              var a, k := u.agvs[v], u.assignments[v];
              if !Eligible(c, u, k.destination) then t == Cancel(c, u, v)
              else if a.job == Some(k.job) && a.target.None? then t == Aim(u, v, k.destination)
              else if a.job.None? && u.jobs[k.job].loc.Stored? && u.jobs[k.job].loc.place.owner == k.destination then t == u.(assignments := u.assignments - {v})
              else t == u
  {
    hide Eligible, Cancel, Aim;
  }

  /** One vehicle is reconciled, the others are left alone. */
  ghost predicate OneTask(c: Scenario, u: State, t: State, v: AgvId) {
    && OnlyFleet(u, t) && t.agvs.Keys == u.agvs.Keys && t.assignments.Keys <= u.agvs.Keys
    && v in u.agvs && v in t.agvs && TaskRow(c, u, t, v) && forall w :: w in u.agvs && w != v ==> SameRow(u, t, w)
  }

  lemma CancelTask(c: Scenario, u: State, v: AgvId)
    requires v in u.agvs && v in u.assignments && u.assignments.Keys <= u.agvs.Keys && (u.agvs[v].target.None? ==> u.agvs[v].service.None?)
    requires u.agvs[v].job.Some? || u.agvs[v].target.Some? ==> Flagged(c, u.machines, u.assignments[v].destination)
    ensures OneTask(c, u, Cancel(c, u, v), v)
  {
    CancelRow(c, u, v);
    hide Cancel, Flagged;
    assert u.agvs[v].target.None? ==> u.agvs[v].(target := None, service := None) == u.agvs[v];
  }

  lemma AimTask(c: Scenario, u: State, v: AgvId)
    requires v in u.agvs && v in u.assignments && u.assignments.Keys <= u.agvs.Keys && u.agvs[v].job.Some?
    requires !Flagged(c, u.machines, u.assignments[v].destination)
    ensures OneTask(c, u, Aim(u, v, u.assignments[v].destination), v)
  {
    hide Flagged;
  }

  lemma KeepTask(c: Scenario, u: State, v: AgvId)
    requires v in u.agvs && u.assignments.Keys <= u.agvs.Keys
    ensures v !in u.assignments ==> OneTask(c, u, u, v)
    ensures v in u.assignments && u.agvs[v].job.None? && u.agvs[v].target.None? ==> OneTask(c, u, u.(assignments := u.assignments - {v}), v)
    ensures (v in u.assignments && !Flagged(c, u.machines, u.assignments[v].destination)
             && if u.agvs[v].job.Some? then u.agvs[v].target == Some(u.assignments[v].destination) else u.agvs[v].target.Some?)
            ==> OneTask(c, u, u, v)
  {
    hide Flagged;
  }

  lemma ReconcileTask(c: Scenario, u: State, v: AgvId)
    requires WellFormed(c) && Inv(c, u) && v in u.agvs
    ensures OneTask(c, u, Reconcile(c, u, v), v)
  {
    TasksKnown(c, u);
    hide WellFormed, Inv, Shaped, Reconcile, Eligible, OneTask, Cancel, Aim, Flagged;
    KeepTask(c, u, v);
    if v in u.assignments {
      var a, k := u.agvs[v], u.assignments[v];
      TaskFacts(c, u, v);
      ReconcileIs(c, u, v);
      if a.job.Some? || a.target.Some? { EligibleMeans(c, u, k.destination); }
      if !Eligible(c, u, k.destination) { CancelTask(c, u, v); }
      else if a.job == Some(k.job) && a.target.None? { AimTask(c, u, v); }
    } else {
      TasksShape(c, u);
      ReconcileIs(c, u, v);
    }
  }

  lemma TasksShape(c: Scenario, u: State)
    requires WellFormed(c) && Inv(c, u)
    ensures Shaped(c, u)
  {
  }

  lemma TaskOne(c: Scenario, x: State, u: State, t: State, done: set<AgvId>, v: AgvId)
    requires Tasked(c, x, u, done) && v !in done && OneTask(c, u, t, v)
    ensures Tasked(c, x, t, done + {v})
  {
    forall w | w in x.agvs ensures TaskRowIf(c, x, t, w in done + {v}, w) { assert TaskRowIf(c, x, u, w in done, w); }
  }

  lemma NothingTasked(c: Scenario, x: State)
    requires x.assignments.Keys <= x.agvs.Keys
    ensures Tasked(c, x, x, {})
  {
    forall w | w in x.agvs ensures TaskRowIf(c, x, x, w in {}, w) {}
  }

  lemma TasksKnown(c: Scenario, s: State)
    requires WellFormed(c) && Inv(c, s)
    ensures s.assignments.Keys <= s.agvs.Keys
  {
  }

  lemma {:induction false} ReconcilesTask(c: Scenario, q: seq<AgvId>, x: State, n: nat)
    requires WellFormed(c) && Inv(c, x) && InTurn(c, q) && n <= |q|
    ensures Tasked(c, x, Reconciles(c, q, x, n), SetOf(q[..n]))
  {
    hide *;
    if n == 0 {
      NothingReconciled(c, q, x);
      TasksKnown(c, x);
      NothingTasked(c, x);
      assert SetOf(q[..0]) == {};
    } else {
      ReconcilesTask(c, q, x, n - 1);
      ReconcilesNext(c, q, x, n - 1);
      TurnDistinct(c, q, n - 1);
      var u, v := Reconciles(c, q, x, n - 1), q[n - 1];
      ReconcileTask(c, u, v);
      TaskOne(c, x, u, Reconcile(c, u, v), SetOf(q[..n - 1]), v);
      assert q[..n] == q[..n - 1] + [v];
      assert SetOf(q[..n]) == SetOf(q[..n - 1]) + {v};
    }
  }

  // -- the whole tick --------------------------------------------------------------------------

  /** The four phases: `w` after withdrawals and interruptions, `x` after finished services, `y` after
      reconciling, `t` with synchronized clocks. */
  ghost predicate Phases(c: Scenario, s: State, w: State, x: State, y: State, t: State) {
    && Dropped(s, w, StoppedOf(c, s, c.agvIds)) && ServedBy(c, w, x, SetOf(c.agvIds)) && Tasked(c, x, y, SetOf(c.agvIds))
    && t == y.(idleSince := t.idleSince) && SetOf(c.agvIds) == s.agvs.Keys
  }

  lemma RowThrough(c: Scenario, s: State, w: State, x: State, y: State, t: State, v: AgvId)
    requires Phases(c, s, w, x, y, t) && v in s.agvs
    ensures v in w.agvs && v in x.agvs && v in t.agvs
    ensures w.agvs[v] == if Stopped(c, s, v) then s.agvs[v].(target := None, service := None) else s.agvs[v]
    ensures (v in w.assignments <==> v in s.assignments && !Stopped(c, s, v)) && (v in w.assignments ==> w.assignments[v] == s.assignments[v])
    ensures x.agvs[v] == Rested(w.agvs[v]) && x.assignments == w.assignments && TaskRow(c, x, t, v)
  {
    hide Stopped, Withdrawn, TaskRow;
    assert DroppedRow(s, w, StoppedOf(c, s, c.agvIds), v);
    assert v in StoppedOf(c, s, c.agvIds) <==> Stopped(c, s, v) by { StoppedAll(c, s, v); }
    assert RowServed(w, x, SetOf(c.agvIds), v);
    assert TaskRowIf(c, x, y, v in SetOf(c.agvIds), v);
    TaskRowClocks(c, x, y, t, v);
  }

  lemma TaskRowClocks(c: Scenario, x: State, y: State, t: State, v: AgvId)
    requires v in x.agvs && v in y.agvs && TaskRow(c, x, y, v) && t == y.(idleSince := t.idleSince)
    ensures v in t.agvs && TaskRow(c, x, t, v)
  {
  }

  lemma StoppedAll(c: Scenario, s: State, v: AgvId)
    requires SetOf(c.agvIds) == s.agvs.Keys && v in s.agvs
    ensures v in StoppedOf(c, s, c.agvIds) <==> Stopped(c, s, v)
  {
    assert v in SetOf(c.agvIds);
  }

  lemma VehicleFrom(c: Scenario, s: State, x: State, t: State, v: AgvId)
    requires v in s.agvs && v in x.agvs && v in t.agvs && (s.agvs[v].target.None? ==> s.agvs[v].service.None?) && x.machines == s.machines
    requires x.agvs[v] == Rested(if Stopped(c, s, v) then s.agvs[v].(target := None, service := None) else s.agvs[v])
    requires (v in x.assignments <==> v in s.assignments && !Stopped(c, s, v)) && (v in x.assignments ==> x.assignments[v] == s.assignments[v])
    requires TaskRow(c, x, t, v)
    ensures VehicleAfter(c, s, t, v)
  {
    hide Stopped, Flagged;
  }

  lemma VehicleThrough(c: Scenario, s: State, w: State, x: State, y: State, t: State, v: AgvId)
    requires Phases(c, s, w, x, y, t) && v in s.agvs && (s.agvs[v].target.None? ==> s.agvs[v].service.None?)
    ensures v in t.agvs && VehicleAfter(c, s, t, v)
  {
    RowThrough(c, s, w, x, y, t, v);
    assert x.machines == s.machines;
    hide Phases, Stopped, Flagged, TaskRow, VehicleAfter;
    VehicleFrom(c, s, x, t, v);
  }

  /** The same services are under way after the withdrawals, without the stopped ones. */
  lemma ServicesThrough(c: Scenario, s: State, w: State, x: State, y: State, t: State, v: AgvId)
    requires Phases(c, s, w, x, y, t)
    ensures (Loads(w, v) <==> PicksUp(c, s, v)) && (Unloads(w, v) <==> Delivers(c, s, v))
    ensures Loads(w, v) || Unloads(w, v) ==> w.agvs[v] == s.agvs[v]
  {
    assert w.agvs.Keys == s.agvs.Keys;
    if v in s.agvs { RowThrough(c, s, w, x, y, t, v); }
    hide Phases, Withdrawn, StationDown;
  }

  /** Storage lists of a safe state are read off the rows. */
  lemma InSlot(c: Scenario, t: State, j: JobId)
    requires WellFormed(c) && Inv(c, t) && j in t.jobs
    ensures forall p :: p in t.storage && j in t.storage[p] ==> t.jobs[j].loc == Stored(p)
    ensures t.jobs[j].loc.Stored? ==> t.jobs[j].loc.place in t.storage && j in t.storage[t.jobs[j].loc.place]
  {
    assert Located(t.jobs, t.queue, t.storage, t.machines, t.agvs, j);
    forall p | p in t.storage && j in t.storage[p] ensures t.jobs[j].loc == Stored(p) { assert Names(t.jobs, j, Stored(p)); }
  }

  lemma JobThrough(c: Scenario, s: State, w: State, x: State, y: State, t: State, j: JobId)
    requires WellFormed(c) && Inv(c, t) && Phases(c, s, w, x, y, t) && j in s.jobs
    ensures j in t.jobs && JobAfter(c, s, t, j)
  {
    assert j in x.jobs && JobServed(c, w, x, SetOf(c.agvIds), j) && t.jobs == x.jobs && w.jobs == s.jobs && w.tick == s.tick;
    assert w.agvs.Keys == SetOf(c.agvIds);
    InSlot(c, t, j);
    forall v ensures (Loads(w, v) <==> PicksUp(c, s, v)) && (Unloads(w, v) <==> Delivers(c, s, v)) && (Loads(w, v) || Unloads(w, v) ==> w.agvs[v] == s.agvs[v]) {
      ServicesThrough(c, s, w, x, y, t, v);
    }
    hide Phases, WellFormed, Inv, Stopped;
    JobFrom(c, s, w, t, j);
  }

  lemma JobFrom(c: Scenario, s: State, w: State, t: State, j: JobId)
    requires j in s.jobs && j in t.jobs && w.jobs == s.jobs && w.tick == s.tick && JobServed(c, w, t, w.agvs.Keys, j)
    requires forall p :: p in t.storage && j in t.storage[p] ==> t.jobs[j].loc == Stored(p)
    requires t.jobs[j].loc.Stored? ==> t.jobs[j].loc.place in t.storage && j in t.storage[t.jobs[j].loc.place]
    requires forall v {:trigger Loads(w, v)} {:trigger PicksUp(c, s, v)} :: Loads(w, v) <==> PicksUp(c, s, v)
    requires forall v {:trigger Unloads(w, v)} {:trigger Delivers(c, s, v)} :: Unloads(w, v) <==> Delivers(c, s, v)
    requires forall v {:trigger Loads(w, v)} {:trigger Unloads(w, v)} :: Loads(w, v) || Unloads(w, v) ==> v in s.agvs && w.agvs[v] == s.agvs[v]
    ensures JobAfter(c, s, t, j)
  {
    hide Stopped, PicksUp, Delivers;
  }

  lemma DemandThrough(c: Scenario, s: State, w: State, x: State, y: State, t: State, d: DemandId)
    requires Phases(c, s, w, x, y, t) && Deliveries.Ships(s.ledger, t.ledger, s.tick)
    ensures DemandAfter(c, s, t, d)
  {
    assert DemandServed(c, w, x, SetOf(c.agvIds), d) && t.ledger == x.ledger && w.ledger == s.ledger && w.jobs == s.jobs;
    assert w.agvs.Keys == SetOf(c.agvIds);
    forall v ensures Ends(c, w, v, d) <==> ShipsNow(c, s, v, d) {
      ServicesThrough(c, s, w, x, y, t, v);
    }
    forall v | Ends(c, w, v, d) ensures v in SetOf(c.agvIds) && JobAt(w, v) == JobAt(s, v) {
      ServicesThrough(c, s, w, x, y, t, v);
    }
    if d in t.ledger.shipped { assert ShippedWhen(s.ledger, t.ledger, s.tick, d); }
    hide Phases, Ends, ShipsNow, Deliveries.Ships;
  }

  lemma ThroughIsTick(c: Scenario, s: State, w: State, x: State, y: State, t: State)
    requires WellFormed(c) && Inv(c, s) && Inv(c, t) && Phases(c, s, w, x, y, t) && Deliveries.Ships(s.ledger, t.ledger, s.tick)
    requires t.ledger.released == s.ledger.released
    ensures TickOfServices(c, s, t)
  {
    assert t.tick == s.tick && t.queue == s.queue && t.machines == s.machines;
    assert t.agvs.Keys == s.agvs.Keys && t.jobs.Keys == s.jobs.Keys && t.storage.Keys == s.storage.Keys && t.assignments.Keys <= s.agvs.Keys;
    hide WellFormed, Inv, Phases, Deliveries.Ships, VehicleAfter, JobAfter, DemandAfter;
    forall v | v in s.agvs ensures VehicleAfter(c, s, t, v) {
      ServingHeads(c, s, v);
      VehicleThrough(c, s, w, x, y, t, v);
    }
    forall j | j in s.jobs ensures JobAfter(c, s, t, j) { JobThrough(c, s, w, x, y, t, j); }
    forall d ensures DemandAfter(c, s, t, d) { DemandThrough(c, s, w, x, y, t, d); }
  }

  lemma WithdrawPhase(c: Scenario, s: State)
    requires WellFormed(c) && Inv(c, s)
    ensures Dropped(s, WithdrawTasks(c, s), StoppedOf(c, s, []))
  {
    hide *;
    TurnsInTurn(c, s);
    var q := Turns(c, s.log);
    TasksKnown(c, s);
    WithdrawDrops(c, q, s, |q|);
    assert q[..|q|] == q;
    WithdrawIs(c, s);
    AllTurns(c, s, q);
    SameGiven(s, WithdrawTasks(c, s), WithdrawnOf(c, s, q), StoppedOf(c, s, []));
  }

  lemma TurnsInTurn(c: Scenario, s: State)
    requires WellFormed(c) && Inv(c, s)
    ensures InTurn(c, Turns(c, s.log)) && SetOf(c.agvIds) == s.agvs.Keys && SetOf(Turns(c, s.log)) == s.agvs.Keys
  {
    hide Turns;
  }

  lemma WithdrawIs(c: Scenario, s: State)
    requires WellFormed(c) && Inv(c, s) && InTurn(c, Turns(c, s.log))
    ensures WithdrawTasks(c, s) == Withdraw(c, Turns(c, s.log), s, |Turns(c, s.log)|)
  {
    hide Turns, Withdraw, OnlyFleet, NoServices, NoneDown, AllFirm, FleetTurns, InTurn, Inv, WellFormed;
  }

  lemma AllTurns(c: Scenario, s: State, q: seq<AgvId>)
    requires SetOf(q) == s.agvs.Keys
    ensures forall v :: v in s.agvs ==> (v in WithdrawnOf(c, s, q) <==> v in StoppedOf(c, s, []))
  {
    assert forall v :: v in s.agvs ==> v in SetOf(q);
    hide Withdrawn, Stopped;
  }

  lemma ReconcilePhase(c: Scenario, x: State)
    requires WellFormed(c) && Inv(c, x)
    ensures Tasked(c, x, ReconcileTasks(c, x), SetOf(c.agvIds))
  {
    hide *;
    TurnsInTurn(c, x);
    var q := Turns(c, x.log);
    ReconcilesTask(c, q, x, |q|);
    assert q[..|q|] == q;
    ReconcileIsFold(c, x);
  }

  lemma ReconcileIsFold(c: Scenario, x: State)
    requires WellFormed(c) && Inv(c, x) && InTurn(c, Turns(c, x.log))
    ensures ReconcileTasks(c, x) == Reconciles(c, Turns(c, x.log), x, |Turns(c, x.log)|)
  {
    hide Turns, Reconciles, OnlyFleet, AllFirm, ClocksKnown, InTurn, Inv, WellFormed;
  }

  /** `complete_services` is one tick of services. */
  lemma ServicesTick(c: Scenario, s: State)
    requires WellFormed(c) && Inv(c, s)
    ensures TickOfServices(c, s, CompleteServices(c, s))
  {
    hide *;
    var n := |c.agvIds|;
    var w0 := WithdrawTasks(c, s);
    WithdrawPhase(c, s);
    InterruptDrops(c, s, w0, n);
    var w := Interrupt(c, w0, n);
    assert c.agvIds[..n] == c.agvIds;
    CompletesServe(c, w, n);
    var x := Completes(c, w, n);
    ReconcilePhase(c, x);
    TurnsInTurn(c, s);
    ServicesAre(c, s);
    PhasesHold(c, s, w, x, ReconcileTasks(c, x), CompleteServices(c, s));
    ThroughIsTick(c, s, w, x, ReconcileTasks(c, x), CompleteServices(c, s));
  }

  lemma PhasesHold(c: Scenario, s: State, w: State, x: State, y: State, t: State)
    requires Dropped(s, w, StoppedOf(c, s, c.agvIds)) && ServedBy(c, w, x, SetOf(c.agvIds)) && Tasked(c, x, y, SetOf(c.agvIds))
    requires t == y.(idleSince := t.idleSince) && SetOf(c.agvIds) == s.agvs.Keys
    ensures Phases(c, s, w, x, y, t)
  {
    hide Dropped, ServedBy, Tasked;
  }

  lemma ServicesAre(c: Scenario, s: State)
    requires WellFormed(c) && Inv(c, s)
    ensures var n := |c.agvIds|;
            var t, y := CompleteServices(c, s), ReconcileTasks(c, Completes(c, Interrupt(c, WithdrawTasks(c, s), n), n));
            && t == y.(idleSince := t.idleSince) && Inv(c, t) && Deliveries.Ships(s.ledger, t.ledger, s.tick) && t.ledger.released == s.ledger.released
  {
    hide WithdrawTasks, Interrupt, Completes, ReconcileTasks, WellFormed, Inv, Deliveries.Ships;
  }
}
