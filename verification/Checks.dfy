/** The assertions the simulator evaluates on itself after every step and every decision phase,
    written over its lists, and the proof that they hold in every safe state. */
module Checks {
  import opened Collections
  import opened Factory
  import opened Custody
  import opened Safety
  import opened Operations
  import opened Reservations

  // -- inventory and commitments as lists ------------------------------------------------------

  /** `items`: all jobs in the given slots of a buffer. */
  function ItemsIn(s: State, b: BufferId, slots: seq<SlotId>): seq<JobId> {
    if slots == [] then []
    else (if Place(b, slots[0]) in s.storage then s.storage[Place(b, slots[0])] else []) + ItemsIn(s, b, slots[1..])
  }

  function Items(c: Scenario, s: State, b: BufferId): seq<JobId>
    requires b in c.buffers
  {
    ItemsIn(s, b, c.buffers[b].declared)
  }

  function OnMachine(s: State, m: MachineId): seq<JobId> {
    if m in s.machines && s.machines[m].job.Some? then [s.machines[m].job.value] else []
  }

  function StationItems(c: Scenario, s: State, m: MachineId): seq<JobId>
    requires m in c.pre && m in c.post && c.pre[m] in c.buffers && c.post[m] in c.buffers
  {
    Items(c, s, c.pre[m]) + Items(c, s, c.post[m]) + OnMachine(s, m)
  }

  /** `commitments`: vehicles targeting the owner or centrally assigned to deliver there. */
  predicate Committed(s: State, v: AgvId, b: BufferId) {
    (v in s.agvs && s.agvs[v].target == Some(b)) || (v in s.assignments && s.assignments[v].destination == b)
  }

  function Commitments(s: State, b: BufferId, ids: seq<AgvId>): seq<AgvId> {
    if ids == [] then []
    else (if Committed(s, ids[0], b) then [ids[0]] else []) + Commitments(s, b, ids[1..])
  }

  /** Vehicles with an unloading service on the place. */
  function Unloading(s: State, p: Place, ids: seq<AgvId>): nat {
    if ids == [] then 0
    else (if ids[0] in s.agvs && Locks(s.agvs[ids[0]], p) then 1 else 0) + Unloading(s, p, ids[1..])
  }

  /** The started job of a POST's machine, as `post_credit_components` counts it. */
  function Started(c: Scenario, s: State, m: MachineId): nat
    requires m in c.post && c.post[m] in c.buffers
  {
    if m in s.machines && s.machines[m].job.Some?
       && s.machines[m].job.value !in Items(c, s, c.post[m])
       && s.machines[m].job.value in s.jobs && s.jobs[s.machines[m].job.value].loc == AtMachine(m)
       && !s.machines[m].status.Idle?
    then 1 else 0
  }

  // -- the assertions --------------------------------------------------------------------------

  predicate StationCheck(c: Scenario, s: State, m: MachineId)
    requires WellFormed(c) && m in c.machines
  {
    assert GoodMachine(c, m);
    |StationItems(c, s, m)| + |Commitments(s, c.pre[m], c.agvIds)| <= StationCapacity(c, m)
  }

  predicate CreditCheck(c: Scenario, s: State, m: MachineId)
    requires WellFormed(c) && m in c.machines
  {
    assert GoodMachine(c, m);
    |Items(c, s, c.post[m])| + Started(c, s, m) - |Commitments(s, c.post[m], c.agvIds)| >= 0
  }

  predicate InputCheck(c: Scenario, s: State, b: BufferId)
    requires b in c.buffers
  {
    |Commitments(s, b, c.agvIds)| <= |Items(c, s, b)|
  }

  predicate SlotCheck(c: Scenario, s: State, p: Place) {
    p in s.storage && p.owner in c.buffers && p.slot in c.buffers[p.owner].capacity &&
    var cap := c.buffers[p.owner].capacity[p.slot];
    cap.None? || |s.storage[p]| + Unloading(s, p, c.agvIds) <= cap.value
  }

  /** `check_reservations` */
  ghost predicate CheckReservations(c: Scenario, s: State)
    requires WellFormed(c)
  {
    && (forall m :: m in c.machines ==> StationCheck(c, s, m) && CreditCheck(c, s, m))
    && (forall b :: b in c.buffers && c.buffers[b].role.Input? ==> InputCheck(c, s, b))
    && (forall p :: KnownPlace(c, p) ==> SlotCheck(c, s, p))
  }

  // -- lists and sets agree --------------------------------------------------------------------

  lemma {:induction false} ItemsInMeaning(c: Scenario, s: State, b: BufferId, slots: seq<SlotId>)
    requires Held(s) && NoDup(slots)
    requires forall k :: k in slots ==> Place(b, k) in s.storage
    ensures NoDup(ItemsIn(s, b, slots))
    ensures forall j :: j in ItemsIn(s, b, slots) <==>
              j in s.jobs && s.jobs[j].loc.Stored? && s.jobs[j].loc.place.owner == b && s.jobs[j].loc.place.slot in slots
  {
    if slots != [] {
      var p, rest := Place(b, slots[0]), slots[1..];
      assert slots == [slots[0]] + rest;
      assert multiset(slots)[slots[0]] <= 1;
      forall k ensures multiset(rest)[k] <= 1 { assert multiset(slots)[k] <= 1; }
      ItemsInMeaning(c, s, b, rest);
      var here, there := s.storage[p], ItemsIn(s, b, rest);
      forall j ensures j in here <==> j in s.jobs && s.jobs[j].loc == Stored(p) {
        if j in here { assert Names(s.jobs, j, Stored(p)); }
        if j in s.jobs { assert Located(s.jobs, s.queue, s.storage, s.machines, s.agvs, j); }
      }
      assert NoDup(here);
      assert slots[0] !in rest;
      DisjointLists(here, there);
    }
  }

  lemma DisjointLists<T(!new)>(a: seq<T>, b: seq<T>)
    requires NoDup(a) && NoDup(b) && forall x :: x in a ==> x !in b
    ensures NoDup(a + b) && |a + b| == |a| + |b|
    ensures forall x :: x in a + b <==> x in a || x in b
  {
    forall x ensures multiset(a + b)[x] <= 1 {
      assert multiset(a)[x] <= 1 && multiset(b)[x] <= 1;
      assert x in multiset(a) <==> x in a;
      assert x in multiset(b) <==> x in b;
    }
  }

  lemma ItemsMeaning(c: Scenario, s: State, b: BufferId)
    requires WellFormed(c) && Shaped(c, s) && Held(s) && b in c.buffers
    ensures NoDup(Items(c, s, b))
    ensures forall j :: j in Items(c, s, b) <==> j in s.jobs && s.jobs[j].loc.Stored? && s.jobs[j].loc.place.owner == b
  {
    assert GoodBuffer(c, b);
    forall k | k in c.buffers[b].declared ensures Place(b, k) in s.storage {
      assert KnownPlace(c, Place(b, k));
    }
    ItemsInMeaning(c, s, b, c.buffers[b].declared);
    forall j | j in s.jobs && s.jobs[j].loc.Stored? && s.jobs[j].loc.place.owner == b
      ensures s.jobs[j].loc.place.slot in c.buffers[b].declared
    {
      assert Located(s.jobs, s.queue, s.storage, s.machines, s.agvs, j);
      assert KnownPlace(c, s.jobs[j].loc.place);
    }
  }

  lemma OnMachineMeaning(s: State, m: MachineId)
    requires Held(s) && m in s.machines
    ensures NoDup(OnMachine(s, m))
    ensures forall j :: j in OnMachine(s, m) <==> j in s.jobs && s.jobs[j].loc == AtMachine(m)
  {
    assert MachineNames(s.jobs, s.machines, m);
    forall j ensures j in OnMachine(s, m) <==> j in s.jobs && s.jobs[j].loc == AtMachine(m) {
      if j in s.jobs { assert Located(s.jobs, s.queue, s.storage, s.machines, s.agvs, j); }
    }
  }

  lemma StationCount(c: Scenario, s: State, m: MachineId)
    requires WellFormed(c) && Shaped(c, s) && Held(s) && m in c.machines && GoodMachine(c, m)
    ensures |StationItems(c, s, m)| == |Load(c, s.jobs, m)|
  {
    ItemsMeaning(c, s, c.pre[m]);
    ItemsMeaning(c, s, c.post[m]);
    OnMachineMeaning(s, m);
    ThreeLists(Items(c, s, c.pre[m]), Items(c, s, c.post[m]), OnMachine(s, m), Load(c, s.jobs, m));
  }

  lemma ThreeLists<T(!new)>(a: seq<T>, b: seq<T>, d: seq<T>, all: set<T>)
    requires NoDup(a) && NoDup(b) && NoDup(d)
    requires forall x :: x in a ==> x !in b && x !in d
    requires forall x :: x in b ==> x !in d
    requires forall x :: x in all <==> x in a || x in b || x in d
    ensures |a + b + d| == |all|
  {
    DisjointLists(a, b);
    DisjointLists(a + b, d);
    assert SetOf(a + b + d) == all;
    CountDistinct(a + b + d);
  }

  lemma SupplyCount(c: Scenario, s: State, b: BufferId)
    requires WellFormed(c) && Inv(c, s) && IsSource(c, b)
    ensures |Supply(c, s.jobs, b)| == |Items(c, s, b)|
              + (if c.buffers[b].role.Post? && c.buffers[b].role.machine in c.post && c.post[c.buffers[b].role.machine] == b
                 then Started(c, s, c.buffers[b].role.machine) else 0)
  {
    ItemsMeaning(c, s, b);
    CountDistinct(Items(c, s, b));
    assert GoodBuffer(c, b);
    if c.buffers[b].role.Post? {
      StartedCount(c, s, c.buffers[b].role.machine);
    } else {
      assert SetOf(Items(c, s, b)) == Supply(c, s.jobs, b);
    }
  }

  lemma StartedCount(c: Scenario, s: State, m: MachineId)
    requires WellFormed(c) && Inv(c, s) && m in c.machines && m in c.post && c.post[m] in c.buffers
    requires c.buffers[c.post[m]].role == Post(m)
    ensures |Supply(c, s.jobs, c.post[m])| == |Items(c, s, c.post[m])| + Started(c, s, m)
  {
    var b := c.post[m];
    ItemsMeaning(c, s, b);
    OnMachineMeaning(s, m);
    assert MachineOk(c, s.jobs, m, s.machines[m]);
    assert MachineNames(s.jobs, s.machines, m);
    ThreeLists([], Items(c, s, b), OnMachine(s, m), Supply(c, s.jobs, b));
    assert |OnMachine(s, m)| == Started(c, s, m);
  }

  lemma {:induction false} CommitmentList(s: State, b: BufferId, ids: seq<AgvId>)
    requires NoDup(ids)
    ensures NoDup(Commitments(s, b, ids))
    ensures forall v :: v in Commitments(s, b, ids) <==> v in ids && Committed(s, v, b)
  {
    if ids != [] {
      var rest := ids[1..];
      assert ids == [ids[0]] + rest;
      forall k ensures multiset(rest)[k] <= 1 { assert multiset(ids)[k] <= 1; }
      CommitmentList(s, b, rest);
      assert multiset(ids)[ids[0]] <= 1;
      assert ids[0] !in rest;
      var here := if Committed(s, ids[0], b) then [ids[0]] else [];
      forall k ensures multiset(here)[k] <= 1 {}
      DisjointLists(here, Commitments(s, b, rest));
    }
  }

  /** The counted commitments include every effective one, and nothing else once every assigned vehicle has a target. */
  lemma CommitmentCount(c: Scenario, s: State, b: BufferId)
    requires WellFormed(c) && Shaped(c, s) && s.assignments.Keys <= s.agvs.Keys
    ensures |Commitments(s, b, c.agvIds)| >= |Commits(s.agvs, s.assignments, b)|
    ensures Aimed(s.agvs, s.assignments) ==> |Commitments(s, b, c.agvIds)| == |Commits(s.agvs, s.assignments, b)|
  {
    var list := Commitments(s, b, c.agvIds);
    CommitmentList(s, b, c.agvIds);
    CountDistinct(list);
    assert forall v :: v in c.agvIds <==> v in SetOf(c.agvIds);
    SubsetSize(Commits(s.agvs, s.assignments, b), SetOf(list));
    if Aimed(s.agvs, s.assignments) {
      AimedMeans(s.agvs, s.assignments);
      assert SetOf(list) == Commits(s.agvs, s.assignments, b);
    }
  }

  ghost function Unloaders(s: State, p: Place, ids: seq<AgvId>): set<AgvId> {
    set v | v in ids && v in s.agvs && Locks(s.agvs[v], p)
  }

  lemma {:induction false} UnloadingCount(s: State, p: Place, ids: seq<AgvId>)
    requires NoDup(ids)
    ensures Unloading(s, p, ids) == |Unloaders(s, p, ids)|
  {
    if ids != [] {
      var rest := ids[1..];
      assert ids == [ids[0]] + rest;
      forall k ensures multiset(rest)[k] <= 1 { assert multiset(ids)[k] <= 1; }
      UnloadingCount(s, p, rest);
      assert multiset(ids)[ids[0]] <= 1;
      assert ids[0] !in rest;
      SwapCount(Unloaders(s, p, rest), Unloaders(s, p, ids), ids[0]);
    }
  }

  // -- the assertions never fire ---------------------------------------------------------------

  /** `check_reservations` holds in every safe state whose assigned vehicles all have targets. */
  lemma ReservationsNeverFail(c: Scenario, s: State)
    requires WellFormed(c) && Inv(c, s) && Aimed(s.agvs, s.assignments)
    ensures CheckReservations(c, s)
  {
    forall m | m in c.machines ensures StationCheck(c, s, m) && CreditCheck(c, s, m) {
      StationNeverFails(c, s, m);
    }
    forall b | b in c.buffers && c.buffers[b].role.Input? ensures InputCheck(c, s, b) {
      assert SourceCovered(c, s.jobs, s.agvs, s.assignments, b);
      CommitmentCount(c, s, b);
      SupplyCount(c, s, b);
    }
    forall p | KnownPlace(c, p) ensures SlotCheck(c, s, p) {
      SlotNeverFails(c, s, p);
    }
  }

  lemma StationNeverFails(c: Scenario, s: State, m: MachineId)
    requires WellFormed(c) && Inv(c, s) && Aimed(s.agvs, s.assignments) && m in c.machines
    ensures StationCheck(c, s, m) && CreditCheck(c, s, m)
  {
    assert GoodMachine(c, m);
    assert StationFits(c, s.jobs, s.agvs, s.assignments, m);
    assert SourceCovered(c, s.jobs, s.agvs, s.assignments, c.post[m]);
    StationCount(c, s, m);
    StartedCount(c, s, m);
    CommitmentCount(c, s, c.pre[m]);
    CommitmentCount(c, s, c.post[m]);
  }

  lemma SlotNeverFails(c: Scenario, s: State, p: Place)
    requires WellFormed(c) && Inv(c, s) && KnownPlace(c, p)
    ensures SlotCheck(c, s, p)
  {
    assert PlaceFits(c, s.storage, s.agvs, p);
    assert forall v :: v in c.agvIds <==> v in SetOf(c.agvIds);
    UnloadingCount(s, p, c.agvIds);
    assert Unloaders(s, p, c.agvIds) == Locked(s.agvs, p);
  }

  // -- the quota -------------------------------------------------------------------------------

  /** `quota`: how many more commitments an owner accepts. */
  function Quota(c: Scenario, s: State, b: BufferId): int
    requires WellFormed(c) && b in c.buffers
  {
    assert GoodBuffer(c, b);
    var committed := |Commitments(s, b, c.agvIds)|;
    match c.buffers[b].role
    case Output => |c.agvIds|
    case Input => Max(0, |Items(c, s, b)| - committed)
    case Post(m) => Max(0, |Items(c, s, b)| + Started(c, s, m) - committed)
    case Pre(m) =>
      assert GoodMachine(c, m);
      Max(0, StationCapacity(c, m) - |StationItems(c, s, m)| - committed)
  }

  /** A positive quota is exactly room for one more commitment. */
  lemma QuotaMeansVacancy(c: Scenario, s: State, b: BufferId)
    requires WellFormed(c) && Inv(c, s) && b in c.buffers
    ensures Quota(c, s, b) > 0 ==> Vacancy(c, s, b)
    ensures Aimed(s.agvs, s.assignments) && Vacancy(c, s, b) ==> Quota(c, s, b) > 0
  {
    assert GoodBuffer(c, b);
    CommitmentCount(c, s, b);
    match c.buffers[b].role
    case Output =>
    case Input => SupplyCount(c, s, b);
    case Post(m) => SupplyCount(c, s, b);
    case Pre(m) =>
      assert GoodMachine(c, m);
      StationCount(c, s, m);
  }
}
