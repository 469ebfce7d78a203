/** From the factory document to the simulator: a document that its constructors, the design validator,
    the production validator and the Base validator accept gives a scenario that meets the
    preconditions of every theorem about runs. */
module Admission {
  import opened Collections
  import opened Availability
  import opened Factory
  import Layout

  // -- the document ----------------------------------------------------------------------------

  datatype BufferRole = SystemInput | SystemOutput | MachinePre | MachinePost | Storage
  datatype Shelf = Shelf(id: SlotId, capacity: nat)
  datatype Storing = Pool(room: Option<nat>) | Slots(slots: seq<Shelf>)
  datatype BufferSheet = BufferSheet(id: BufferId, role: BufferRole, storage: Storing, machine: Option<MachineId>, footprint: Layout.Footprint)
  datatype ModeSheet = ModeSheet(id: ModeId, mode: Mode)
  datatype MachineSheet = MachineSheet(id: MachineId, types: set<OpType>, rate: real, modes: seq<ModeSheet>, footprint: Layout.Footprint)
  datatype AgvSheet = AgvSheet(id: AgvId, cell: Cell)
  /** A port serves at most one facility. */
  datatype PortSheet = PortSheet(cell: Cell, owner: Option<BufferId>)
  datatype DemandSheet = DemandSheet(id: DemandId, steps: seq<Step>, releaseAt: int, dueAt: int, input: Option<BufferId>)

  /** `others` are the inspection stations, scrap bins and chargers. */
  datatype Document = Document(
    width: int, height: int, blocked: seq<Cell>,
    machines: seq<MachineSheet>, buffers: seq<BufferSheet>, others: seq<Layout.Resource>, ports: seq<PortSheet>, agvs: seq<AgvSheet>,
    demands: seq<DemandSheet>)

  function Map<A, B>(xs: seq<A>, f: A -> B): (ys: seq<B>)
    ensures |ys| == |xs| && forall i :: 0 <= i < |xs| ==> ys[i] == f(xs[i])
  {
    seq(|xs|, i requires 0 <= i < |xs| => f(xs[i]))
  }

  function Floor(p: Document): Layout.Design {
    Layout.Design(p.width, p.height, p.blocked,
                  Map(p.machines, (m: MachineSheet) => Layout.Resource(Layout.MachineGroup, m.footprint))
                  + Map(p.buffers, (b: BufferSheet) => Layout.Resource(Layout.BufferGroup, b.footprint)) + p.others,
                  Map(p.ports, (x: PortSheet) => x.cell), Map(p.agvs, (v: AgvSheet) => v.cell))
  }

  function MachineNames(p: Document): seq<nat> { Map(p.machines, (m: MachineSheet) => m.id) }
  function BufferNames(p: Document): seq<nat> { Map(p.buffers, (b: BufferSheet) => b.id) }
  function AgvNames(p: Document): seq<nat> { Map(p.agvs, (v: AgvSheet) => v.id) }
  function DemandNames(p: Document): seq<nat> { Map(p.demands, (d: DemandSheet) => d.id) }
  function ModeNames(m: MachineSheet): seq<nat> { Map(m.modes, (x: ModeSheet) => x.id) }
  function SlotNames(b: BufferSheet): seq<SlotId> {
    if b.storage.Pool? then [0] else Map(b.storage.slots, (x: Shelf) => x.id)
  }

  // -- who accepts it --------------------------------------------------------------------------

  /** What the constructors of the records enforce. */
  ghost predicate Typed(p: Document) {
    && Layout.Typed(Floor(p))
    && (forall m :: m in p.machines ==> m.rate > 0.0 && forall x :: x in m.modes ==> x.mode.timeScale > 0.0)
    && (forall d :: d in p.demands ==> |d.steps| > 0 && d.releaseAt >= 0)
    && NoDup(DemandNames(p))
  }

  predicate Owned(r: BufferRole) {
    r.MachinePre? || r.MachinePost?
  }

  /** No error of the design validator: geometry, identifiers, slots and the owners of buffers. */
  ghost predicate DesignAccepts(p: Document) {
    && Layout.Accepted(Floor(p))
    && NoDup(MachineNames(p)) && NoDup(BufferNames(p)) && NoDup(AgvNames(p))
    && (forall b :: b in p.buffers ==> NoDup(SlotNames(b)))
    && (forall b :: b in p.buffers && b.machine.Some? ==> Owned(b.role) && b.machine.value in MachineNames(p))
  }

  function Inputs(p: Document): set<BufferId> {
    set b | b in p.buffers && b.role.SystemInput? :: b.id
  }

  /** No machine owns two buffers of one role. */
  ghost predicate OneEach(bs: seq<BufferSheet>) {
    forall i, k {:trigger bs[i], bs[k]} :: 0 <= i < k < |bs| && bs[i].machine.Some? && bs[i].role == bs[k].role ==> bs[i].machine != bs[k].machine
  }

  /** The production validator, after the design validator. */
  ghost predicate ProductionAccepts(p: Document) {
    && DesignAccepts(p) && |p.agvs| > 0
    && OneEach(p.buffers) && (forall b :: b in p.buffers && Owned(b.role) ==> b.machine.Some?)
    && (forall d :: d in p.demands ==> if d.input.Some? then d.input.value in Inputs(p) else |Inputs(p)| == 1)
  }

  predicate Owns(b: BufferSheet, role: BufferRole, m: MachineId) {
    b.role == role && b.machine == Some(m) && b.storage.Pool? && b.storage.room.Some?
  }

  ghost predicate HasBuffer(p: Document, role: BufferRole, m: MachineId) {
    exists b :: b in p.buffers && Owns(b, role, m)
  }

  /** The Base validator: both buffers of every machine, finite pools. */
  ghost predicate BaseAccepts(p: Document) {
    && (forall x :: x in p.others ==> x.group.ChargerGroup?)
    && (forall m :: m in MachineNames(p) ==> HasBuffer(p, MachinePre, m) && HasBuffer(p, MachinePost, m))
    && (forall b :: b in p.buffers && b.machine.Some? && b.machine.value in MachineNames(p) ==> b.storage.Pool? && b.storage.room.Some?)
  }

  /** Machines and buffers only, and no buffer without a part in the flow of jobs. */
  ghost predicate Plain(p: Document) {
    p.others == [] && |p.demands| > 0 && forall b :: b in p.buffers ==> !b.role.Storage?
  }

  ghost predicate Accepts(p: Document) {
    Typed(p) && ProductionAccepts(p) && BaseAccepts(p) && Plain(p)
  }

  // -- the scenario ----------------------------------------------------------------------------

  /** Everything a run is given besides the document. */
  datatype World = World(
    outages: seq<Outage>, dynamic: bool, tickLimit: int, penalty: real, low: real, high: real, ceilRounding: bool,
    processingDraw: (JobId, nat) -> real, qualityDraw: (JobId, nat) -> real, samples: map<(JobId, nat, MachineId), nat>,
    reaches: (Cell, BufferId) -> bool, central: bool)

  ghost predicate GoodWorld(w: World) {
    w.tickLimit > 0 && 0.0 < w.low <= w.high
  }

  /** `sorted`: every item before those that do not go before it. */
  function Sorted<T>(xs: seq<T>, before: (T, T) -> bool): (ys: seq<T>)
    ensures multiset(ys) == multiset(xs)
  {
    if xs == [] then []
    else
      assert xs == [xs[0]] + xs[1..];
      Placed(xs[0], Sorted(xs[1..], before), before)
  }

  function Placed<T>(x: T, ys: seq<T>, before: (T, T) -> bool): (zs: seq<T>)
    ensures multiset(zs) == multiset(ys) + multiset{x}
  {
    if ys == [] || before(x, ys[0]) then [x] + ys
    else
      assert ys == [ys[0]] + ys[1..];
      [ys[0]] + Placed(x, ys[1..], before)
  }

  function InOrder(ids: seq<nat>): seq<nat> {
    Sorted(ids, (a: nat, b: nat) => a <= b)
  }

  ghost function BufferAt(p: Document, b: BufferId): (x: BufferSheet)
    requires b in BufferNames(p)
    ensures x in p.buffers && x.id == b
  {
    var i :| 0 <= i < |p.buffers| && BufferNames(p)[i] == b;
    p.buffers[i]
  }

  ghost function MachineAt(p: Document, m: MachineId): (x: MachineSheet)
    requires m in MachineNames(p)
    ensures x in p.machines && x.id == m
  {
    var i :| 0 <= i < |p.machines| && MachineNames(p)[i] == m;
    p.machines[i]
  }

  ghost function AgvAt(p: Document, v: AgvId): (x: AgvSheet)
    requires v in AgvNames(p)
    ensures x in p.agvs && x.id == v
  {
    var i :| 0 <= i < |p.agvs| && AgvNames(p)[i] == v;
    p.agvs[i]
  }

  ghost function DemandAt(p: Document, d: DemandId): (x: DemandSheet)
    requires d in DemandNames(p)
    ensures x in p.demands && x.id == d
  {
    var i :| 0 <= i < |p.demands| && DemandNames(p)[i] == d;
    p.demands[i]
  }

  ghost function Release(p: Document, d: DemandId): int {
    if d in DemandNames(p) then DemandAt(p, d).releaseAt else 0
  }

  /** Demands by release time, then by identifier. */
  ghost function DemandOrder(p: Document): seq<DemandId> {
    Sorted(DemandNames(p), (d: DemandId, e: DemandId) => Release(p, d) < Release(p, e) || (Release(p, d) == Release(p, e) && d <= e))
  }

  /** The buffer that serves the machine in this role. */
  ghost function StationBuffer(p: Document, role: BufferRole, m: MachineId): (b: BufferId)
    requires HasBuffer(p, role, m)
  {
    var x :| x in p.buffers && Owns(x, role, m);
    x.id
  }

  ghost function Stations(p: Document, role: BufferRole): map<MachineId, BufferId>
    requires BaseAccepts(p) && Owned(role)
  {
    map m | m in MachineNames(p) :: StationBuffer(p, role, m)
  }

  function RoleOf(x: BufferSheet): Role
    requires !x.role.Storage? && (Owned(x.role) ==> x.machine.Some?)
  {
    if x.role.SystemInput? then Input
    else if x.role.SystemOutput? then Output
    else if x.role.MachinePre? then Pre(x.machine.value)
    else Post(x.machine.value)
  }

  ghost function ShelfAt(x: BufferSheet, k: SlotId): (y: Shelf)
    requires x.storage.Slots? && k in SlotNames(x)
    ensures y in x.storage.slots && y.id == k
  {
    var i :| 0 <= i < |x.storage.slots| && SlotNames(x)[i] == k;
    x.storage.slots[i]
  }

  ghost function Capacity(x: BufferSheet): map<SlotId, Option<nat>> {
    if x.storage.Pool? then map[0 := x.storage.room]
    else map k | k in SlotNames(x) :: Some(ShelfAt(x, k).capacity)
  }

  /** `_input`: the declared Input, or the only one. */
  ghost function InputOf(p: Document, d: DemandSheet): BufferId
    requires ProductionAccepts(p) && d in p.demands
  {
    if d.input.Some? then d.input.value else var b :| b in Inputs(p); b
  }

  ghost function Modes(x: MachineSheet): map<ModeId, Mode> {
    map k | k in ModeNames(x) :: ModeAt(x, k).mode
  }

  ghost function ModeAt(x: MachineSheet, k: ModeId): (y: ModeSheet)
    requires k in ModeNames(x)
    ensures y in x.modes && y.id == k
  {
    var i :| 0 <= i < |x.modes| && ModeNames(x)[i] == k;
    x.modes[i]
  }

  ghost function PortCells(ports: seq<PortSheet>, b: BufferId): set<Cell> {
    set x | x in ports && x.owner == Some(b) :: x.cell
  }

  ghost function Grid(p: Document, f: Cell -> bool): set<Cell>
  {
    set x, y | 0 <= x < p.width && 0 <= y < p.height && f(Cell(x, y)) :: Cell(x, y)
  }

  ghost function MachineMap(p: Document): map<MachineId, Machine> {
    map m | m in MachineNames(p) :: var x := MachineAt(p, m); Machine(x.types, x.rate, Modes(x))
  }

  ghost function BufferMap(p: Document): map<BufferId, Buffer>
    requires ProductionAccepts(p) && Plain(p)
  {
    map b | b in BufferNames(p) :: BufferOf(BufferAt(p, b))
  }

  ghost function BufferOf(x: BufferSheet): Buffer
    requires !x.role.Storage? && (Owned(x.role) ==> x.machine.Some?)
  {
    Buffer(RoleOf(x), InOrder(SlotNames(x)), SlotNames(x), Capacity(x))
  }

  ghost function DemandMap(p: Document): map<DemandId, Demand>
    requires ProductionAccepts(p)
  {
    map d | d in DemandNames(p) :: var x := DemandAt(p, d); Demand(x.steps, x.releaseAt, x.dueAt, InputOf(p, x))
  }

  ghost function Starts(p: Document): map<AgvId, Cell> {
    map v | v in AgvNames(p) :: AgvAt(p, v).cell
  }

  ghost function Ports(p: Document): map<BufferId, set<Cell>> {
    map b | b in BufferNames(p) :: PortCells(p.ports, b)
  }

  ghost function Solids(p: Document): set<Cell> {
    Grid(p, x => Layout.IsSolid(Floor(p), x))
  }

  ghost function Walkable(p: Document): set<Cell> {
    Grid(p, x => Layout.IsWalkable(Floor(p), x))
  }

  ghost function Build(p: Document, w: World): Scenario
    requires Accepts(p)
  {
    Scenario(
      InOrder(MachineNames(p)), MachineMap(p), InOrder(BufferNames(p)), BufferMap(p), Stations(p, MachinePre), Stations(p, MachinePost),
      InOrder(AgvNames(p)), Starts(p), Solids(p), Walkable(p), Ports(p), DemandOrder(p), DemandMap(p),
      w.outages, w.dynamic, w.tickLimit, w.penalty, w.low, w.high, w.ceilRounding, w.processingDraw, w.qualityDraw, w.samples, w.reaches, w.central)
  }

  // -- the accepted document meets the preconditions -------------------------------------------

  lemma Ordered(ids: seq<nat>, q: seq<nat>)
    requires multiset(q) == multiset(ids) && NoDup(ids)
    ensures NoDup(q) && |q| == |ids| && forall x :: x in q <==> x in ids
  {
    SameMembers(ids, q);
    assert forall x :: x in q <==> x in SetOf(q);
  }

  lemma OneBuffer(p: Document, x: BufferSheet, y: BufferSheet)
    requires NoDup(BufferNames(p)) && x in p.buffers && y in p.buffers && x.id == y.id
    ensures x == y
  {
    var i :| 0 <= i < |p.buffers| && p.buffers[i] == x;
    var k :| 0 <= k < |p.buffers| && p.buffers[k] == y;
    if i < k { NoDupIndex(BufferNames(p), i, k); }
    if k < i { NoDupIndex(BufferNames(p), k, i); }
  }

  lemma OneOwner(p: Document, x: BufferSheet, y: BufferSheet)
    requires ProductionAccepts(p) && x in p.buffers && y in p.buffers
    requires x.machine.Some? && x.machine == y.machine && x.role == y.role
    ensures x == y
  {
    var i :| 0 <= i < |p.buffers| && p.buffers[i] == x;
    var k :| 0 <= k < |p.buffers| && p.buffers[k] == y;
  }

  lemma NamedBuffer(p: Document, x: BufferSheet)
    requires NoDup(BufferNames(p)) && x in p.buffers
    ensures x.id in BufferNames(p) && BufferAt(p, x.id) == x
  {
    var i :| 0 <= i < |p.buffers| && p.buffers[i] == x;
    assert BufferNames(p)[i] == x.id;
    OneBuffer(p, x, BufferAt(p, x.id));
  }

  /** The station maps and the buffers' own records name each other. */
  lemma StationIs(p: Document, role: BufferRole, x: BufferSheet, m: MachineId)
    requires ProductionAccepts(p) && BaseAccepts(p) && Owned(role)
    requires x in p.buffers && x.role == role && x.machine == Some(m)
    ensures m in Stations(p, role) && Stations(p, role)[m] == x.id
  {
    var y :| y in p.buffers && Owns(y, role, m) && y.id == StationBuffer(p, role, m);
    OneOwner(p, x, y);
  }

  lemma MachineIsServed(p: Document, role: BufferRole, m: MachineId)
    requires ProductionAccepts(p) && BaseAccepts(p) && Owned(role) && m in MachineNames(p)
    ensures m in Stations(p, role) && Stations(p, role)[m] in BufferNames(p)
    ensures var x := BufferAt(p, Stations(p, role)[m]); x.role == role && x.machine == Some(m)
  {
    var y :| y in p.buffers && Owns(y, role, m) && y.id == StationBuffer(p, role, m);
    NamedBuffer(p, y);
  }

  /** The resources of `c` are those of the document. */
  ghost predicate Stocked(p: Document, c: Scenario)
    requires Accepts(p)
  {
    && c.machines == MachineMap(p) && c.buffers == BufferMap(p) && c.demands == DemandMap(p) && c.start == Starts(p)
    && c.pre == Stations(p, MachinePre) && c.post == Stations(p, MachinePost) && c.ports == Ports(p)
    && c.solids == Solids(p) && c.walkable == Walkable(p)
  }

  lemma BuildIsStocked(p: Document, w: World)
    requires Accepts(p)
    ensures Stocked(p, Build(p, w))
  {
  }

  lemma SlotsAreKnown(x: BufferSheet)
    requires !x.role.Storage? && (Owned(x.role) ==> x.machine.Some?) && NoDup(SlotNames(x))
    ensures var y := BufferOf(x);
            && NoDup(y.declared) && NoDup(y.sorted)
            && (forall k :: k in y.capacity <==> k in y.declared) && (forall k :: k in y.capacity <==> k in y.sorted)
  {
    Ordered(SlotNames(x), InOrder(SlotNames(x)));
  }

  lemma SlotsAreDistinct(p: Document, x: BufferSheet)
    requires DesignAccepts(p) && x in p.buffers
    ensures NoDup(SlotNames(x))
  {
    if x.storage.Pool? { assert multiset([0]) == multiset{0}; }
  }

  lemma BufferRow(p: Document, b: BufferId)
    requires ProductionAccepts(p) && Plain(p) && b in BufferNames(p)
    ensures b in BufferMap(p) && BufferMap(p)[b] == BufferOf(BufferAt(p, b)) && b in Ports(p)
  {
  }

  /** A machine's buffer is a finite pool and its station map names it. */
  lemma OwnedRow(p: Document, x: BufferSheet)
    requires ProductionAccepts(p) && BaseAccepts(p) && x in p.buffers && Owned(x.role)
    ensures x.machine.Some? && x.machine.value in MachineMap(p)
    ensures x.machine.value in Stations(p, x.role) && Stations(p, x.role)[x.machine.value] == x.id
    ensures forall k :: k in Capacity(x) ==> Capacity(x)[k].Some?
  {
    StationIs(p, x.role, x, x.machine.value);
  }

  /** The conjuncts of `GoodBuffer` for the buffer of one sheet. */
  lemma SheetIsGood(c: Scenario, b: BufferId, x: BufferSheet)
    requires !x.role.Storage? && (Owned(x.role) ==> x.machine.Some?) && NoDup(SlotNames(x)) && x.id == b
    requires b in c.buffers && c.buffers[b] == BufferOf(x) && b in c.ports
    requires Owned(x.role) ==>
               && x.machine.value in c.machines && (forall k :: k in Capacity(x) ==> Capacity(x)[k].Some?)
               && var station := if x.role.MachinePre? then c.pre else c.post;
                  x.machine.value in station && station[x.machine.value] == b
    ensures GoodBuffer(c, b)
  {
    SlotsAreKnown(x);
    hide NoDup, Capacity, InOrder, SlotNames;
  }

  lemma BufferIsGood(p: Document, c: Scenario, b: BufferId)
    requires Accepts(p) && Stocked(p, c) && b in BufferNames(p)
    ensures GoodBuffer(c, b)
  {
    var x := BufferAt(p, b);
    BufferRow(p, b);
    SlotsAreDistinct(p, x);
    assert Owned(x.role) ==> x.machine.Some?;
    if Owned(x.role) { OwnedRow(p, x); }
    hide GoodBuffer, NoDup, Capacity, ProductionAccepts, BaseAccepts, BufferMap, MachineMap, DemandMap, Starts, Ports, Stations, BufferNames, BufferOf, SlotNames;
    SheetIsGood(c, b, x);
  }

  lemma ServedRow(p: Document, role: BufferRole, m: MachineId)
    requires Accepts(p) && Owned(role) && m in MachineNames(p)
    ensures m in Stations(p, role) && Stations(p, role)[m] in BufferMap(p)
    ensures BufferMap(p)[Stations(p, role)[m]].role == if role.MachinePre? then Pre(m) else Post(m)
  {
    MachineIsServed(p, role, m);
    BufferRow(p, Stations(p, role)[m]);
  }

  lemma MachineRowIs(p: Document, m: MachineId)
    requires Typed(p) && m in MachineNames(p)
    ensures m in MachineMap(p) && MachineMap(p)[m].rate > 0.0
    ensures forall k :: k in MachineMap(p)[m].modes ==> MachineMap(p)[m].modes[k].timeScale > 0.0
  {
  }

  lemma MachineIsGood(p: Document, c: Scenario, m: MachineId)
    requires Accepts(p) && Stocked(p, c) && m in MachineNames(p)
    ensures GoodMachine(c, m)
  {
    MachineRowIs(p, m);
    ServedRow(p, MachinePre, m);
    ServedRow(p, MachinePost, m);
    hide ProductionAccepts, BaseAccepts, BufferMap, MachineMap, DemandMap, Starts, Ports, Stations, Typed, Plain;
  }

  lemma InputRow(p: Document, b: BufferId)
    requires ProductionAccepts(p) && Plain(p) && b in Inputs(p)
    ensures b in BufferMap(p) && BufferMap(p)[b].role == Input
  {
    var x :| x in p.buffers && x.role.SystemInput? && x.id == b;
    NamedBuffer(p, x);
    BufferRow(p, b);
  }

  lemma DemandIsGood(p: Document, c: Scenario, d: DemandId)
    requires Accepts(p) && Stocked(p, c) && d in DemandNames(p)
    ensures GoodDemand(c, d)
  {
    var b := InputOf(p, DemandAt(p, d));
    assert b in Inputs(p);
    InputRow(p, b);
  }

  lemma OneVehicle(p: Document, i: nat)
    requires NoDup(AgvNames(p)) && i < |p.agvs|
    ensures AgvNames(p)[i] in AgvNames(p) && AgvAt(p, AgvNames(p)[i]) == p.agvs[i]
  {
    var x := AgvAt(p, AgvNames(p)[i]);
    var k :| 0 <= k < |p.agvs| && p.agvs[k] == x;
    if i < k { NoDupIndex(AgvNames(p), i, k); }
    if k < i { NoDupIndex(AgvNames(p), k, i); }
  }

  lemma GridCells(p: Document, f: Cell -> bool, x: Cell)
    ensures x in Grid(p, f) <==> Layout.Inside(Floor(p), x) && f(x)
  {
    assert x == Cell(x.x, x.y);
  }

  lemma FloorCells(p: Document, x: Cell)
    requires Layout.Accepted(Floor(p))
    ensures x in Solids(p) <==> Layout.IsSolid(Floor(p), x)
    ensures x in Walkable(p) <==> Layout.IsWalkable(Floor(p), x)
  {
    GridCells(p, x => Layout.IsSolid(Floor(p), x), x);
    GridCells(p, x => Layout.IsWalkable(Floor(p), x), x);
    if Layout.IsSolid(Floor(p), x) { Layout.SolidIsInside(Floor(p), x); }
  }

  lemma StartCells(p: Document, i: nat)
    requires DesignAccepts(p) && i < |p.agvs|
    ensures AgvNames(p)[i] in Starts(p) && Starts(p)[AgvNames(p)[i]] == Floor(p).agvs[i]
  {
    OneVehicle(p, i);
  }

  lemma PlainFloor(p: Document)
    requires p.others == []
    ensures Layout.ProductionOnly(Floor(p))
  {
  }

  /** The description from the three maps. */
  lemma Described(p: Document, c: Scenario)
    requires DesignAccepts(p) && c.solids == Solids(p) && c.walkable == Walkable(p) && c.start == Starts(p)
    ensures Layout.Describes(Floor(p), c, AgvNames(p))
  {
    assert forall v :: v in Starts(p) ==> v in AgvNames(p);
    assert |Floor(p).agvs| == |AgvNames(p)| == |p.agvs|;
    hide Solids, Walkable, Starts, DesignAccepts, Layout.IsSolid, Layout.IsWalkable, Floor, AgvNames;
    forall x ensures (x in Solids(p) <==> Layout.IsSolid(Floor(p), x)) && (x in Walkable(p) <==> Layout.IsWalkable(Floor(p), x)) {
      DesignFloor(p);
      FloorCells(p, x);
    }
    forall i | 0 <= i < |AgvNames(p)| ensures AgvNames(p)[i] in Starts(p) && Starts(p)[AgvNames(p)[i]] == Floor(p).agvs[i] { StartCells(p, i); }
  }

  lemma DesignFloor(p: Document)
    requires DesignAccepts(p)
    ensures Layout.Accepted(Floor(p))
  {
  }

  lemma FloorIsDescribed(p: Document, c: Scenario)
    requires Accepts(p) && Stocked(p, c)
    ensures Layout.Describes(Floor(p), c, AgvNames(p))
  {
    hide DesignAccepts, BaseAccepts, Typed, Plain, Layout.Describes;
    Described(p, c);
  }

  lemma Listed(ids: seq<nat>, q: seq<nat>, keys: set<nat>)
    requires multiset(q) == multiset(ids) && NoDup(ids) && forall x :: x in keys <==> x in ids
    ensures NoDup(q) && SetOf(q) == keys && |q| == |ids|
  {
    Ordered(ids, q);
  }

  lemma Lists(p: Document, c: Scenario)
    requires Accepts(p) && Stocked(p, c)
    requires c.machineIds == InOrder(MachineNames(p)) && c.bufferIds == InOrder(BufferNames(p))
    requires c.agvIds == InOrder(AgvNames(p)) && c.demandIds == DemandOrder(p)
    ensures NoDup(c.machineIds) && SetOf(c.machineIds) == c.machines.Keys && NoDup(c.bufferIds) && SetOf(c.bufferIds) == c.buffers.Keys
    ensures NoDup(c.agvIds) && SetOf(c.agvIds) == c.start.Keys && |c.agvIds| > 0
    ensures NoDup(c.demandIds) && SetOf(c.demandIds) == c.demands.Keys && |c.demandIds| > 0
  {
    hide NoDup, SetOf, Layout.Accepted, BaseAccepts, Layout.Typed;
    Listed(MachineNames(p), c.machineIds, c.machines.Keys);
    Listed(BufferNames(p), c.bufferIds, c.buffers.Keys);
    Listed(AgvNames(p), c.agvIds, c.start.Keys);
    Listed(DemandNames(p), c.demandIds, c.demands.Keys);
  }

  lemma Parts(p: Document, c: Scenario)
    requires Accepts(p) && Stocked(p, c)
    ensures forall b {:trigger GoodBuffer(c, b)} :: b in c.buffers ==> GoodBuffer(c, b)
    ensures forall m {:trigger GoodMachine(c, m)} :: m in c.machines ==> GoodMachine(c, m)
    ensures forall d {:trigger GoodDemand(c, d)} :: d in c.demands ==> GoodDemand(c, d)
  {
    assert c.buffers.Keys == BufferMap(p).Keys && c.machines.Keys == MachineMap(p).Keys && c.demands.Keys == DemandMap(p).Keys;
    hide GoodBuffer, GoodMachine, GoodDemand, ProductionAccepts, BaseAccepts, Typed, Plain, Stocked;
    forall b | b in c.buffers ensures GoodBuffer(c, b) { BufferIsGood(p, c, b); }
    forall m | m in c.machines ensures GoodMachine(c, m) { MachineIsGood(p, c, m); }
    forall d | d in c.demands ensures GoodDemand(c, d) { DemandIsGood(p, c, d); }
  }

  lemma Geometry(p: Document, c: Scenario)
    requires Accepts(p) && Stocked(p, c)
    ensures c.walkable !! c.solids && forall x :: x in Floor(p).ports ==> x in c.walkable
    ensures forall v, u {:trigger StartApart(c, v, u)} :: v in c.start && u in c.start ==> StartApart(c, v, u)
  {
    FloorIsDescribed(p, c);
    PlainFloor(p);
    hide Stocked, BaseAccepts, StartApart;
    Layout.AcceptedGeometry(Floor(p), c, AgvNames(p));
  }

  /** What the constructors and the three validators accept, without chargers and idle storage, meets the
      preconditions of the theorems about runs. */
  lemma AcceptedIsWellFormed(p: Document, w: World)
    requires Accepts(p) && GoodWorld(w)
    ensures WellFormed(Build(p, w))
  {
    var c := Build(p, w);
    BuildIsStocked(p, w);
    Lists(p, c);
    Parts(p, c);
    Geometry(p, c);
    assert c.tickLimit > 0 && 0.0 < c.low <= c.high;
    hide *;
  }

  /** Ports of an accepted document lie on walkable cells, and no cell is a port of two owners. */
  lemma AcceptedPorts(p: Document, c: Scenario, a: BufferId, b: BufferId)
    requires Accepts(p) && Stocked(p, c) && a in BufferNames(p) && b in BufferNames(p)
    ensures c.ports[a] <= c.walkable && c.ports[a] !! c.solids && (a != b ==> c.ports[a] !! c.ports[b])
  {
    Geometry(p, c);
    forall x | x in c.ports[a] ensures x in Floor(p).ports && (a != b ==> x !in c.ports[b]) { PortIsAlone(p, x, a, b); }
  }

  lemma PortIsAlone(p: Document, x: Cell, a: BufferId, b: BufferId)
    requires Layout.Distinct(Floor(p).ports) && x in PortCells(p.ports, a)
    ensures x in Floor(p).ports && (a != b ==> x !in PortCells(p.ports, b))
  {
    var y :| y in p.ports && y.owner == Some(a) && y.cell == x;
    var i :| 0 <= i < |p.ports| && p.ports[i] == y;
    assert Floor(p).ports[i] == x;
    forall z | z in p.ports && z.cell == x ensures z == y {
      var k :| 0 <= k < |p.ports| && p.ports[k] == z;
      assert Floor(p).ports[k] == x;
    }
  }

  // -- the station maps of the constructor -----------------------------------------------------

  /** Whether a machine's buffer goes to the PRE map, or to the POST map as every other role does. */
  predicate OnSide(b: BufferSheet, pre: bool) {
    b.machine.Some? && b.role.MachinePre? == pre
  }

  /** The entries the first `n` buffers make. */
  ghost predicate Entered(bs: seq<BufferSheet>, n: nat, pre: bool, station: map<MachineId, BufferId>)
    requires n <= |bs|
  {
    && (forall m :: m in station ==> exists i :: 0 <= i < n && OnSide(bs[i], pre) && bs[i].machine.value == m && station[m] == bs[i].id)
    && (forall i :: 0 <= i < n && OnSide(bs[i], pre) ==> bs[i].machine.value in station)
  }

  /** No machine has two buffers on a side among the first `n`. */
  ghost predicate Paired(bs: seq<BufferSheet>, n: nat)
    requires n <= |bs|
  {
    forall i, k :: 0 <= i < k < n ==> Distinguished(bs[i], bs[k])
  }

  predicate Distinguished(a: BufferSheet, b: BufferSheet) {
    a.machine.Some? && b.machine.Some? && a.role.MachinePre? == b.role.MachinePre? ==> a.machine != b.machine
  }

  /** The constructor walks the buffers and refuses a second buffer of a machine on the same side. */
  method PairBuffers(bs: seq<BufferSheet>) returns (stations: Option<(map<MachineId, BufferId>, map<MachineId, BufferId>)>)
    ensures stations.Some? <==> Paired(bs, |bs|)
    ensures stations.Some? ==> Entered(bs, |bs|, true, stations.value.0) && Entered(bs, |bs|, false, stations.value.1)
  {
    var pre: map<MachineId, BufferId>, post: map<MachineId, BufferId> := map[], map[];
    for i := 0 to |bs|
      invariant Paired(bs, i) && Entered(bs, i, true, pre) && Entered(bs, i, false, post)
    {
      var b := bs[i];
      if b.machine.Some? {
        var target := if b.role.MachinePre? then pre else post;
        if b.machine.value in target {
          var k :| 0 <= k < i && OnSide(bs[k], b.role.MachinePre?) && bs[k].machine == b.machine;
          assert !Distinguished(bs[k], bs[i]);
          return None;
        }
        if b.role.MachinePre? { pre := pre[b.machine.value := b.id]; } else { post := post[b.machine.value := b.id]; }
      }
    }
    stations := Some((pre, post));
  }

  lemma AcceptedDistinguished(p: Document, x: BufferSheet, y: BufferSheet)
    requires ProductionAccepts(p) && x in p.buffers && y in p.buffers && x != y
    ensures Distinguished(x, y)
  {
    if !Distinguished(x, y) { OneOwner(p, x, y); }
  }

  lemma AcceptedPaired(p: Document, bs: seq<BufferSheet>)
    requires ProductionAccepts(p) && NoDup(bs) && forall x :: x in bs ==> x in p.buffers
    ensures Paired(bs, |bs|)
  {
    hide ProductionAccepts, Distinguished;
    forall i, k | 0 <= i < k < |bs| ensures Distinguished(bs[i], bs[k]) {
      NoDupIndex(bs, i, k);
      AcceptedDistinguished(p, bs[i], bs[k]);
    }
  }

  lemma SideIsRole(p: Document, x: BufferSheet, pre: bool)
    requires ProductionAccepts(p) && x in p.buffers && OnSide(x, pre)
    ensures x.role == if pre then MachinePre else MachinePost
  {
  }

  lemma StationKeys(p: Document, role: BufferRole)
    requires BaseAccepts(p) && Owned(role)
    ensures forall m :: m in Stations(p, role) <==> m in MachineNames(p)
  {
  }

  lemma EnteredStations(p: Document, bs: seq<BufferSheet>, role: BufferRole, station: map<MachineId, BufferId>)
    requires ProductionAccepts(p) && BaseAccepts(p) && Owned(role)
    requires (forall x :: x in bs <==> x in p.buffers) && Entered(bs, |bs|, role.MachinePre?, station)
    ensures station == Stations(p, role)
  {
    hide ProductionAccepts, BaseAccepts, MachineNames, Stations, BufferNames;
    StationKeys(p, role);
    forall m | m in station ensures m in Stations(p, role) && Stations(p, role)[m] == station[m] {
      var i :| 0 <= i < |bs| && OnSide(bs[i], role.MachinePre?) && bs[i].machine.value == m && station[m] == bs[i].id;
      assert bs[i] in bs;
      SideIsRole(p, bs[i], role.MachinePre?);
      StationIs(p, role, bs[i], m);
    }
    forall m | m in Stations(p, role) ensures m in station {
      MachineIsServed(p, role, m);
      assert BufferAt(p, Stations(p, role)[m]) in bs;
    }
  }

  /** After the validators the constructor refuses nothing, in whatever order it walks the buffers, and
      its maps are those of the scenario. */
  lemma AcceptedPairs(p: Document, bs: seq<BufferSheet>, role: BufferRole, station: map<MachineId, BufferId>)
    requires ProductionAccepts(p) && BaseAccepts(p) && multiset(bs) == multiset(p.buffers) && Owned(role)
    ensures Paired(bs, |bs|)
    ensures Entered(bs, |bs|, role.MachinePre?, station) ==> station == Stations(p, role)
  {
    DistinctSheets(p);
    SameMembers(p.buffers, bs);
    assert forall x :: (x in bs <==> x in SetOf(bs)) && (x in p.buffers <==> x in SetOf(p.buffers));
    hide ProductionAccepts, BaseAccepts, Entered, Stations, NoDup, Paired;
    AcceptedPaired(p, bs);
    if Entered(bs, |bs|, role.MachinePre?, station) { EnteredStations(p, bs, role, station); }
  }

  lemma {:induction false} ApartMeansNoDup<T(!new)>(q: seq<T>)
    requires forall i, k :: 0 <= i < k < |q| ==> q[i] != q[k]
    ensures NoDup(q)
  {
    if q != [] {
      var n := |q| - 1;
      ApartMeansNoDup(q[..n]);
      NoDupAppend(q[..n], q[n]);
      assert q == q[..n] + [q[n]];
    }
  }

  lemma DistinctSheets(p: Document)
    requires NoDup(BufferNames(p))
    ensures NoDup(p.buffers)
  {
    forall i, k | 0 <= i < k < |p.buffers| ensures p.buffers[i] != p.buffers[k] { NoDupIndex(BufferNames(p), i, k); }
    ApartMeansNoDup(p.buffers);
  }

  // -- a document that is accepted -------------------------------------------------------------

  function Tile(x: int): Layout.Footprint {
    Layout.Footprint(x, 0, 1, 1)
  }

  const DRILL := MachineSheet(0, {0}, 1.0, [ModeSheet(0, Mode(1.0, 0.0))], Tile(0))
  const INPUT := BufferSheet(0, SystemInput, Pool(None), None, Tile(1))
  const OUTPUT := BufferSheet(1, SystemOutput, Pool(None), None, Tile(2))
  const PRE := BufferSheet(2, MachinePre, Pool(Some(1)), Some(0), Tile(3))
  const POST := BufferSheet(3, MachinePost, Pool(Some(1)), Some(0), Tile(4))

  /** A row with a machine and its buffers, and below it the ports and one vehicle. */
  function Small(): Document {
    Document(5, 2, [], [DRILL], [INPUT, OUTPUT, PRE, POST], [],
             [PortSheet(Cell(1, 1), Some(0)), PortSheet(Cell(2, 1), Some(1)), PortSheet(Cell(3, 1), Some(2)), PortSheet(Cell(4, 1), Some(3))],
             [AgvSheet(0, Cell(0, 1))], [DemandSheet(0, [Step(0, 5.0, map[])], 0, 20, None)])
  }

  lemma RowIsAccepted(d: Layout.Design)
    requires d.width == 5 && d.height == 2 && d.blocked == [] && |d.resources| == 5
    requires forall k {:trigger d.resources[k]} :: 0 <= k < 5 ==> d.resources[k].footprint == Tile(k)
    requires d.ports == [Cell(1, 1), Cell(2, 1), Cell(3, 1), Cell(4, 1)] && d.agvs == [Cell(0, 1)]
    ensures Layout.Typed(d) && Layout.Accepted(d)
  {
    forall k | 0 <= k < |d.resources| ensures Layout.Placed(d, k) {
      assert d.resources[k].footprint == Tile(k);
    }
  }

  lemma SmallFloor()
    ensures Layout.Typed(Floor(Small())) && Layout.Accepted(Floor(Small()))
  {
    var d := Floor(Small());
    assert d.ports == [Cell(1, 1), Cell(2, 1), Cell(3, 1), Cell(4, 1)];
    forall k | 0 <= k < 5 ensures d.resources[k].footprint == Tile(k) {}
    RowIsAccepted(d);
  }

  lemma SmallNames()
    ensures var p := Small();
            NoDup(MachineNames(p)) && NoDup(BufferNames(p)) && NoDup(AgvNames(p)) && NoDup(DemandNames(p))
  {
    var p := Small();
    ApartMeansNoDup(MachineNames(p));
    ApartMeansNoDup(BufferNames(p));
    ApartMeansNoDup(AgvNames(p));
    ApartMeansNoDup(DemandNames(p));
  }

  lemma SmallStations(p: Document)
    requires p == Small()
    ensures 0 in MachineNames(p) && forall m :: m in MachineNames(p) ==> m == 0 && HasBuffer(p, MachinePre, m) && HasBuffer(p, MachinePost, m)
  {
    assert MachineNames(p)[0] == 0;
    assert p.buffers[2] == PRE && p.buffers[3] == POST && Owns(PRE, MachinePre, 0) && Owns(POST, MachinePost, 0);
  }

  lemma SmallSlots(b: BufferSheet)
    requires b in [INPUT, OUTPUT, PRE, POST]
    ensures NoDup(SlotNames(b))
  {
    ApartMeansNoDup([0]);
    hide NoDup;
  }

  lemma SmallDesign(p: Document)
    requires p == Small()
    ensures DesignAccepts(p)
  {
    SmallFloor();
    SmallNames();
    SmallStations(p);
    assert p.buffers == [INPUT, OUTPUT, PRE, POST];
    assert forall b :: b in p.buffers && b.machine.Some? ==> Owned(b.role) && b.machine.value == 0;
    forall b | b in p.buffers ensures NoDup(SlotNames(b)) { SmallSlots(b); }
    hide Layout.Accepted, Floor, NoDup, Small, MachineNames, BufferNames, AgvNames, SlotNames;
  }

  lemma SmallInputs(p: Document)
    requires p == Small()
    ensures Inputs(p) == {0}
  {
    assert p.buffers[0] == INPUT;
  }

  lemma SmallOwners(bs: seq<BufferSheet>)
    requires bs == [INPUT, OUTPUT, PRE, POST]
    ensures OneEach(bs) && forall b :: b in bs ==> !b.role.Storage? && (Owned(b.role) ==> b.machine.Some?)
  {
  }

  lemma SmallProduction(p: Document)
    requires p == Small()
    ensures ProductionAccepts(p) && Plain(p)
  {
    SmallDesign(p);
    SmallInputs(p);
    SmallOwners(p.buffers);
    assert |p.agvs| == 1 && p.others == [] && p.demands[0].input.None? && |p.demands| == 1;
    hide DesignAccepts, Inputs, Small, OneEach, Owned;
  }

  lemma SmallTyped(p: Document)
    requires p == Small()
    ensures Typed(p) && BaseAccepts(p)
  {
    SmallFloor();
    SmallNames();
    SmallStations(p);
    hide Layout.Typed, Layout.Accepted, NoDup, Floor, MachineNames, HasBuffer;
  }

  /** Some document is accepted. */
  lemma SmallIsAccepted()
    ensures Accepts(Small())
  {
    SmallProduction(Small());
    SmallTyped(Small());
    hide *;
  }
}
