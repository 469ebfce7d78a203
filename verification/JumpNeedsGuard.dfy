/** Why the idle interval refuses to jump while a vehicle is ready: without that guard there is a state
    from which the jump and its single ticks lead to different states. */
module JumpNeedsGuard {
  import opened Collections
  import opened Availability
  import opened Factory
  import opened Custody
  import opened Safety
  import opened Operations
  import opened Settling
  import opened Physics
  import opened Stepping
  import opened TimeJump
  import opened StaleClocks
  import Smallest

  const FIRST := Job(0, 1)
  const IN_INPUT := JobRow(0, Stored(Place(0, 0)), 0, Unknown, false, false)
  const EMPTY_MACHINE := MachineRow(None, Idle, 0, 0, 0, None, false)
  const ON_ITS_WAY := AgvRow(Cell(1, 0), None, Some(0), None, 1)

  function Shop(): Scenario {
    Smallest.Workshop(true)
  }

  /** The vehicle left its Input at tick 0 and got a task there at tick 1, with its idle clock running
      since 0. The machine it shall deliver to breaks down at tick 3. */
  function Sent(): State {
    State(1, map[FIRST := IN_INPUT], [],
          map[Place(0, 0) := [FIRST], Place(1, 0) := [], Place(2, 0) := [], Place(3, 0) := []],
          map[0 := EMPTY_MACHINE], map[0 := ON_ITS_WAY],
          Ledger({0}, map[0 := 1], {}, map[], {}), map[0 := 0], map[0 := Assignment(FIRST, 2)], [])
  }

  // -- the scenario and the state, field by field ----------------------------------------------

  /** What the proofs use of the scenario. */
  ghost predicate Plan(c: Scenario) {
    && c.machines == map[0 := Smallest.DRILL] && c.pre == map[0 := 2] && c.post == map[0 := 3]
    && c.buffers.Keys == {0, 1, 2, 3}
    && (forall b :: b in c.buffers ==> c.buffers[b].capacity.Keys == {0} && c.buffers[b].declared == [0])
    && c.buffers[0].role == Input && c.buffers[0].capacity[0] == None
    && c.buffers[1].role == Output && c.buffers[1].capacity[0] == None
    && c.buffers[2].role == Pre(0) && c.buffers[2].capacity[0] == Some(1)
    && c.buffers[3].role == Post(0) && c.buffers[3].capacity[0] == Some(1)
    && c.agvIds == [0] && c.start.Keys == {0} && c.walkable == {Cell(0, 0), Cell(1, 0)}
    && c.demands == map[0 := Smallest.ORDER]
    && c.outages == [Outage(0, 3, 6)] && c.dynamic && c.tickLimit == 100 && c.central
  }

  lemma ShopPlan()
    ensures Plan(Shop()) && WellFormed(Shop())
  {
    Smallest.WorkshopIsWellFormed(true);
    hide WellFormed;
  }

  ghost predicate Rooms(storage: Lists) {
    && storage.Keys == {Place(0, 0), Place(1, 0), Place(2, 0), Place(3, 0)} && storage[Place(0, 0)] == [FIRST]
    && storage[Place(1, 0)] == [] && storage[Place(2, 0)] == [] && storage[Place(3, 0)] == []
  }

  ghost predicate Vehicle(agvs: Agvs, tasks: map<AgvId, Assignment>) {
    agvs == map[0 := ON_ITS_WAY] && tasks == map[0 := Assignment(FIRST, 2)]
  }

  /** What the proofs use of the state. */
  ghost predicate Scene(s: State) {
    && s.tick == 1 && s.jobs == map[FIRST := IN_INPUT] && s.queue == [] && Rooms(s.storage)
    && s.machines == map[0 := EMPTY_MACHINE] && Vehicle(s.agvs, s.assignments)
    && s.ledger == Ledger({0}, map[0 := 1], {}, map[], {}) && s.idleSince == map[0 := 0] && s.log == []
  }

  lemma SentScene()
    ensures Scene(Sent())
  {
  }

  // -- the state is safe -----------------------------------------------------------------------

  lemma ScenePlaces(c: Scenario, storage: Lists, p: Place)
    requires c.buffers.Keys == {0, 1, 2, 3} && Rooms(storage)
    requires forall b :: b in c.buffers ==> c.buffers[b].capacity.Keys == {0}
    ensures p in storage <==> KnownPlace(c, p)
  {
  }

  lemma SceneShaped(c: Scenario, s: State)
    requires Plan(c) && Scene(s)
    ensures Shaped(c, s)
  {
    hide Rooms;
    forall p ensures p in s.storage <==> KnownPlace(c, p) { ScenePlaces(c, s.storage, p); }
    assert KnownJob(c, FIRST);
  }

  lemma SceneHeld(jobs: Rows, queue: seq<JobId>, storage: Lists, machines: Machines, agvs: Agvs)
    requires jobs == map[FIRST := IN_INPUT] && queue == [] && Rooms(storage)
    requires machines == map[0 := EMPTY_MACHINE] && agvs == map[0 := ON_ITS_WAY]
    ensures Custodial(jobs, queue, storage, machines, agvs)
  {
    forall p | p in storage ensures NoDup(storage[p]) { assert multiset([FIRST]) == multiset{FIRST}; }
    forall p, j | p in storage && j in storage[p] ensures Names(jobs, j, Stored(p)) {}
  }

  lemma SceneRows(c: Scenario, s: State)
    requires Plan(c) && Scene(s)
    ensures JobsOk(c, s.jobs) && MachinesOk(c, s.jobs, s.machines) && VehiclesOk(c, s.jobs, s.agvs)
  {
    hide Rooms;
  }

  lemma SceneLedger(c: Scenario, jobs: Rows, l: Ledger)
    requires Plan(c) && jobs == map[FIRST := IN_INPUT] && l == Ledger({0}, map[0 := 1], {}, map[], {})
    ensures LedgerOk(c, jobs, l)
  {
    assert Attempted(jobs, l, 0) && LedgerRow(c, IN_INPUT, FIRST, l);
  }

  lemma SceneTasks(c: Scenario, jobs: Rows, agvs: Agvs, tasks: map<AgvId, Assignment>)
    requires Plan(c) && jobs == map[FIRST := IN_INPUT] && Vehicle(agvs, tasks)
    ensures ControlOk(c, jobs, agvs, tasks)
  {
    assert AssignmentOk(c, jobs, agvs[0], tasks[0]);
  }

  lemma SceneBooks(c: Scenario, s: State)
    requires Plan(c) && Scene(s)
    ensures LedgerOk(c, s.jobs, s.ledger) && ControlOk(c, s.jobs, s.agvs, s.assignments)
  {
    hide Plan, LedgerOk, ControlOk;
    SceneLedger(c, s.jobs, s.ledger);
    SceneTasks(c, s.jobs, s.agvs, s.assignments);
  }

  lemma SceneCommits(agvs: Agvs, tasks: map<AgvId, Assignment>, b: BufferId)
    requires Vehicle(agvs, tasks)
    ensures Commits(agvs, tasks, b) == if b == 0 || b == 2 then {0} else {}
  {
  }

  lemma RoomForOne(c: Scenario)
    requires Plan(c) && WellFormed(c)
    ensures StationCapacity(c, 0) >= 1
  {
    hide WellFormed;
  }

  lemma SceneStation(c: Scenario, jobs: Rows, agvs: Agvs, tasks: map<AgvId, Assignment>)
    requires c.pre == map[0 := 2] && c.post == map[0 := 3] && jobs == map[FIRST := IN_INPUT] && Vehicle(agvs, tasks)
    ensures |Load(c, jobs, 0)| + |Commits(agvs, tasks, c.pre[0])| == 1
  {
    SceneCommits(agvs, tasks, 2);
    assert Load(c, jobs, 0) == {};
  }

  lemma OneStation(c: Scenario, jobs: Rows, agvs: Agvs, tasks: map<AgvId, Assignment>)
    requires WellFormed(c) && c.machines.Keys == {0} && 0 in c.pre && 0 in c.post && StationCapacity(c, 0) >= 1
    requires |Load(c, jobs, 0)| + |Commits(agvs, tasks, c.pre[0])| == 1
    ensures StationsFit(c, jobs, agvs, tasks)
  {
    hide WellFormed, Load, Commits, StationCapacity;
  }

  lemma SceneStations(c: Scenario, s: State)
    requires Plan(c) && Scene(s) && WellFormed(c)
    ensures StationsFit(c, s.jobs, s.agvs, s.assignments)
  {
    hide WellFormed, Load, Commits, StationCapacity, StationsFit;
    RoomForOne(c);
    SceneStation(c, s.jobs, s.agvs, s.assignments);
    OneStation(c, s.jobs, s.agvs, s.assignments);
  }

  lemma SceneSource(c: Scenario, jobs: Rows, agvs: Agvs, tasks: map<AgvId, Assignment>, b: BufferId)
    requires b in c.buffers && b != 2 && jobs == map[FIRST := IN_INPUT] && Vehicle(agvs, tasks)
    ensures SourceCovered(c, jobs, agvs, tasks, b)
  {
    SceneCommits(agvs, tasks, b);
    if b == 0 { assert Supply(c, jobs, b) == {FIRST}; }
  }

  lemma SceneSupplies(c: Scenario, s: State)
    requires Plan(c) && Scene(s)
    ensures SuppliesCover(c, s.jobs, s.agvs, s.assignments)
  {
    hide Rooms;
    forall b | IsSource(c, b) ensures SourceCovered(c, s.jobs, s.agvs, s.assignments, b) {
      SceneSource(c, s.jobs, s.agvs, s.assignments, b);
    }
  }

  lemma SceneLock(c: Scenario, storage: Lists, agvs: Agvs, p: Place)
    requires Plan(c) && Rooms(storage) && agvs == map[0 := ON_ITS_WAY] && p in storage
    ensures PlaceFits(c, storage, agvs, p)
  {
    assert Locked(agvs, p) == {};
  }

  lemma SceneLocks(c: Scenario, s: State)
    requires Plan(c) && Scene(s)
    ensures LocksFit(c, s.storage, s.agvs)
  {
    hide Plan, Rooms;
    forall p | p in s.storage ensures PlaceFits(c, s.storage, s.agvs, p) { SceneLock(c, s.storage, s.agvs, p); }
  }

  lemma SceneIsSafe(c: Scenario, s: State)
    requires Plan(c) && Scene(s) && WellFormed(c)
    ensures Inv(c, s)
  {
    SceneShaped(c, s);
    SceneHeld(s.jobs, s.queue, s.storage, s.machines, s.agvs);
    SceneRows(c, s);
    SceneBooks(c, s);
    SceneStations(c, s);
    SceneSupplies(c, s);
    SceneLocks(c, s);
    hide WellFormed, Plan, Scene, Shaped, Custodial, JobsOk, MachinesOk, VehiclesOk, StationsFit, SuppliesCover, LocksFit, ControlOk, LedgerOk;
  }

  // -- it lies between decisions and nothing happens for two ticks ------------------------------

  /** The calendar says the machine is down from tick 3 until tick 6. */
  lemma DownFromThree(os: seq<Outage>, t: int)
    requires os == [Outage(0, 3, 6)]
    ensures DownAt(os, 0, t) <==> 3 <= t < 6
  {
    DisjointCalendarsAgree(os, 0, t);
    assert os[0] in os;
  }

  lemma SceneIsCalm(c: Scenario, s: State)
    requires Plan(c) && Scene(s)
    ensures Calm(c, s) && DueReleased(c, s) && !Done(c, s)
  {
    DownFromThree(c.outages, s.tick);
    assert FlagCurrent(c, s.machines, 0, s.tick);
    assert HeadsOut(s.agvs, 0);
  }

  lemma SceneIsFirm(c: Scenario, s: State)
    requires Plan(c) && Scene(s) && WellFormed(c) && Shaped(c, s)
    ensures AllFirm(c, s)
  {
    hide WellFormed;
    assert Firm(c, s, 0);
  }

  lemma SceneIsDecided(c: Scenario, s: State)
    requires Plan(c) && Scene(s) && WellFormed(c)
    ensures Decided(c, s)
  {
    SceneIsSafe(c, s);
    SceneIsCalm(c, s);
    SceneShaped(c, s);
    SceneIsFirm(c, s);
    hide WellFormed, Plan, Scene, Calm, DueReleased, AllFirm;
  }

  lemma SceneIsQuiet(c: Scenario, s: State)
    requires Plan(c) && Scene(s)
    ensures Quiet(c, s, 2)
  {
  }

  /** At tick 3 the only task is withdrawn, from a vehicle whose clock runs since tick 0. */
  lemma SceneIsStale(c: Scenario, s: State)
    requires Plan(c) && Scene(s)
    ensures StaleWithdrawal(c, s, 3)
  {
    DownFromThree(c.outages, 3);
    assert Turns(c, s.log) == [0];
    assert Hit(c, [0], s.assignments, 3, 0);
    assert FirstHit(c, [0], FleetOf(s).assignments, 3, 0);
  }

  /** A vehicle is ready at this state: the idle interval is one tick. */
  lemma SceneIsGuarded(s: State)
    requires Scene(s)
    ensures !NoneReady(s)
  {
    assert FIRST in s.jobs;
    assert LoadReady(s, 0);
  }

  lemma StaleDiffers(c: Scenario, s: State)
    requires WellFormed(c) && Decided(c, s) && Quiet(c, s, 2) && Plan(c) && Scene(s) && StaleWithdrawal(c, s, 3)
    ensures Ticks(c, s, map[], 2) != Interval(c, s, map[], 2)
  {
    assert !DoneAt(c, s.ledger.shipped, 3) && s.tick + 2 == 3;
    hide WellFormed, Inv, Plan, Scene, Ticks, Interval, StaleWithdrawal, DoneAt, Calm, DueReleased, AllFirm, Reachable;
    JumpExactly(c, s, map[], 2);
  }

  /** The guard cannot be dropped: from a state between decisions in which nothing is due for two ticks,
      jumping both at once differs from taking them one by one. */
  lemma JumpWithoutGuardDiffers()
    ensures var c, s := Shop(), Sent(); WellFormed(c) && Decided(c, s) && Quiet(c, s, 2) && !NoneReady(s)
    ensures var c, s := Shop(), Sent(); Ticks(c, s, map[], 2) != Interval(c, s, map[], 2)
  {
    var c, s := Shop(), Sent();
    ShopPlan();
    SentScene();
    hide *;
    SceneIsDecided(c, s);
    SceneIsQuiet(c, s);
    SceneIsStale(c, s);
    SceneIsGuarded(s);
    StaleDiffers(c, s);
  }
}
