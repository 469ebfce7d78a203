/** Floor geometry: the design validator's checks and what an accepted design gives the simulator. */
module Layout {
  import opened Factory

  datatype Footprint = Footprint(x: int, y: int, width: int, height: int)
  datatype Group = MachineGroup | BufferGroup | StationGroup | ScrapGroup | ChargerGroup
  datatype Resource = Resource(group: Group, footprint: Footprint)
  datatype Design = Design(width: int, height: int, blocked: seq<Cell>, resources: seq<Resource>, ports: seq<Cell>, agvs: seq<Cell>)

  datatype Issue =
    | BlockedOutOfBounds | DuplicateBlockedCell | FootprintOutOfBounds | BlockedOverlap | ResourceOverlap
    | PortOutOfBounds | PortNotWalkable | PortOverlap | AgvOutOfBounds | AgvNotWalkable | AgvOverlap

  /** The constructors of grids and footprints refuse anything else. */
  ghost predicate Typed(d: Design) {
    d.width >= 1 && d.height >= 1 && forall r :: r in d.resources ==> r.footprint.width >= 1 && r.footprint.height >= 1
  }

  predicate Inside(d: Design, c: Cell) {
    0 <= c.x < d.width && 0 <= c.y < d.height
  }

  predicate InBounds(d: Design, f: Footprint) {
    0 <= f.x && 0 <= f.y && f.x + f.width <= d.width && f.y + f.height <= d.height
  }

  predicate Occupies(f: Footprint, c: Cell) {
    f.x <= c.x < f.x + f.width && f.y <= c.y < f.y + f.height
  }

  /** `occupied_cells`, row by row. */
  method OccupiedCells(f: Footprint) returns (cells: set<Cell>)
    requires f.width >= 1 && f.height >= 1
    ensures forall c :: c in cells <==> Occupies(f, c)
  {
    cells := {};
    for y := f.y to f.y + f.height
      invariant forall c :: c in cells <==> Occupies(f, c) && c.y < y
    {
      for x := f.x to f.x + f.width
        invariant forall c :: c in cells <==> Occupies(f, c) && (c.y < y || (c.y == y && c.x < x))
      {
        cells := cells + {Cell(x, y)};
      }
    }
  }

  // -- what the validator accepts ----------------------------------------------------------------

  ghost predicate Distinct(cells: seq<Cell>) {
    forall i, k :: 0 <= i < k < |cells| ==> cells[i] != cells[k]
  }

  ghost predicate OffFloor(d: Design, upto: nat, c: Cell)
    requires upto <= |d.resources|
  {
    c in d.blocked || exists k :: 0 <= k < upto && Occupies(d.resources[k].footprint, c)
  }

  ghost predicate Placed(d: Design, k: nat)
    requires k < |d.resources|
  {
    InBounds(d, d.resources[k].footprint) && forall c :: Occupies(d.resources[k].footprint, c) ==> !OffFloor(d, k, c)
  }

  /** Cells of ports or vehicles: in the grid, on the floor, and no two the same. */
  ghost predicate OnFloor(d: Design, cells: seq<Cell>) {
    Distinct(cells) && forall c :: c in cells ==> Inside(d, c) && !OffFloor(d, |d.resources|, c)
  }

  ghost predicate FreeOf(d: Design, cells: seq<Cell>, taken: set<Cell>) {
    Distinct(cells) && forall c :: c in cells ==> Inside(d, c) && c !in taken
  }

  ghost predicate Accepted(d: Design) {
    && Distinct(d.blocked) && (forall c :: c in d.blocked ==> Inside(d, c))
    && (forall k :: 0 <= k < |d.resources| ==> Placed(d, k))
    && OnFloor(d, d.ports) && OnFloor(d, d.agvs)
  }

  method CheckBlocked(d: Design) returns (issues: seq<Issue>, blocked: set<Cell>)
    ensures forall c :: c in blocked <==> c in d.blocked
    ensures issues == [] <==> Distinct(d.blocked) && forall c :: c in d.blocked ==> Inside(d, c)
  {
    issues, blocked := [], {};
    for i := 0 to |d.blocked|
      invariant forall c :: c in blocked <==> c in d.blocked[..i]
      invariant issues == [] <==> Distinct(d.blocked[..i]) && forall c :: c in d.blocked[..i] ==> Inside(d, c)
    {
      var cell := d.blocked[i];
      OneMore(d.blocked, i);
      if !Inside(d, cell) { issues := issues + [BlockedOutOfBounds]; }
      if cell in blocked { issues := issues + [DuplicateBlockedCell]; }
      blocked := blocked + {cell};
    }
    assert d.blocked[..|d.blocked|] == d.blocked;
  }

  lemma OneMore(cells: seq<Cell>, i: nat)
    requires i < |cells|
    ensures forall c :: c in cells[..i + 1] <==> c in cells[..i] || c == cells[i]
    ensures Distinct(cells[..i + 1]) <==> Distinct(cells[..i]) && cells[i] !in cells[..i]
  {
    var more, cs := cells[..i + 1], cells[..i];
    assert more == cs + [cells[i]];
    if Distinct(more) {
      forall a, b | 0 <= a < b < i ensures cs[a] != cs[b] { assert more[a] != more[b]; }
      forall a | 0 <= a < i ensures cs[a] != cells[i] { assert more[a] != more[i]; }
    }
    if Distinct(cs) && cells[i] !in cs {
      forall a, b | 0 <= a < b < i + 1 ensures more[a] != more[b] { if b < i { assert cs[a] != cs[b]; } else { assert cs[a] in cs; } }
    }
  }

  /** Resources in order; one that leaves the grid is not entered in the occupied cells. */
  method CheckResources(d: Design, blocked: set<Cell>) returns (issues: seq<Issue>, solids: set<Cell>)
    requires Typed(d) && forall c :: c in blocked <==> c in d.blocked
    ensures issues == [] <==> forall k :: 0 <= k < |d.resources| ==> Placed(d, k)
    ensures issues == [] ==> forall c :: c in blocked + solids <==> OffFloor(d, |d.resources|, c)
  {
    issues, solids := [], {};
    for i := 0 to |d.resources|
      invariant issues == [] <==> forall k :: 0 <= k < i ==> Placed(d, k)
      invariant issues == [] ==> forall c :: c in blocked + solids <==> OffFloor(d, i, c)
    {
      var f := d.resources[i].footprint;
      assert d.resources[i] in d.resources;
      if !InBounds(d, f) {
        issues := issues + [FootprintOutOfBounds];
        assert !Placed(d, i);
      } else {
        var cells := OccupiedCells(f);
        ghost var clear := issues == [];
        if cells * blocked != {} { issues := issues + [BlockedOverlap]; }
        if cells * solids != {} { issues := issues + [ResourceOverlap]; }
        PlacedNow(d, i, cells, blocked, solids, clear);
        solids := solids + cells;
      }
    }
  }

  lemma PlacedNow(d: Design, i: nat, cells: set<Cell>, blocked: set<Cell>, solids: set<Cell>, clear: bool)
    requires i < |d.resources| && InBounds(d, d.resources[i].footprint) && forall c :: c in cells <==> Occupies(d.resources[i].footprint, c)
    requires clear ==> forall c :: c in blocked + solids <==> OffFloor(d, i, c)
    ensures clear ==> (Placed(d, i) <==> cells * blocked == {} && cells * solids == {})
    ensures clear ==> forall c :: c in blocked + (solids + cells) <==> OffFloor(d, i + 1, c)
  {
    if clear {
      if cells * blocked == {} && cells * solids == {} {
        forall c | Occupies(d.resources[i].footprint, c) ensures !OffFloor(d, i, c) { assert c in cells && c !in cells * blocked && c !in cells * solids; }
      }
      if Placed(d, i) {
        forall c | c in cells ensures c !in blocked && c !in solids { assert c in blocked + solids <==> OffFloor(d, i, c); }
      }
      forall c ensures c in blocked + (solids + cells) <==> OffFloor(d, i + 1, c) {
        assert OffFloor(d, i + 1, c) <==> OffFloor(d, i, c) || Occupies(d.resources[i].footprint, c);
      }
    }
  }

  /** Ports and vehicles are checked alike. */
  method CheckCells(d: Design, cells: seq<Cell>, taken: set<Cell>, outside: Issue, unwalkable: Issue, overlap: Issue) returns (issues: seq<Issue>)
    ensures issues == [] <==> FreeOf(d, cells, taken)
  {
    issues := [];
    var seen: set<Cell> := {};
    for i := 0 to |cells|
      invariant forall c :: c in seen <==> c in cells[..i]
      invariant issues == [] <==> FreeOf(d, cells[..i], taken)
    {
      var cell := cells[i];
      OneMore(cells, i);
      if !Inside(d, cell) { issues := issues + [outside]; }
      if cell in taken { issues := issues + [unwalkable]; }
      if cell in seen { issues := issues + [overlap]; }
      seen := seen + {cell};
    }
    assert cells[..|cells|] == cells;
  }

  /** The geometric part of `validate_factory_design`. */
  method Validate(d: Design) returns (issues: seq<Issue>)
    requires Typed(d)
    ensures issues == [] <==> Accepted(d)
  {
    var first, blocked := CheckBlocked(d);
    var second, solids := CheckResources(d, blocked);
    var third := CheckCells(d, d.ports, blocked + solids, PortOutOfBounds, PortNotWalkable, PortOverlap);
    var fourth := CheckCells(d, d.agvs, blocked + solids, AgvOutOfBounds, AgvNotWalkable, AgvOverlap);
    issues := first + second + third + fourth;
  }

  // -- what the simulator starts from --------------------------------------------------------------

  /** The cells the run-time check treats as solid: blocked cells and every resource. */
  ghost predicate IsSolid(d: Design, c: Cell) {
    OffFloor(d, |d.resources|, c)
  }

  /** The cells routes use: inside the grid, not blocked, and not a machine or a buffer. */
  ghost predicate IsWalkable(d: Design, c: Cell) {
    && Inside(d, c) && c !in d.blocked
    && forall k :: 0 <= k < |d.resources| && (d.resources[k].group.MachineGroup? || d.resources[k].group.BufferGroup?) ==>
         !Occupies(d.resources[k].footprint, c)
  }

  predicate ProductionOnly(d: Design) {
    forall k :: 0 <= k < |d.resources| ==> d.resources[k].group.MachineGroup? || d.resources[k].group.BufferGroup?
  }

  /** Routes and the run-time check agree on the floor exactly when an accepted design has machines and
      buffers only: any charger, scrap bin or inspection station leaves walkable cells that the check
      refuses. */
  lemma FloorsAgreeExactly(d: Design)
    requires Typed(d) && Accepted(d)
    ensures (forall c :: IsWalkable(d, c) ==> !IsSolid(d, c)) <==> ProductionOnly(d)
  {
    if !ProductionOnly(d) {
      var k :| 0 <= k < |d.resources| && !(d.resources[k].group.MachineGroup? || d.resources[k].group.BufferGroup?);
      var f := d.resources[k].footprint;
      assert d.resources[k] in d.resources;
      var c := Cell(f.x, f.y);
      assert Placed(d, k) && Occupies(f, c);
      forall n | 0 <= n < |d.resources| && n != k ensures !Occupies(d.resources[n].footprint, c) { Apart(d, n, k, c); }
      assert IsWalkable(d, c) && IsSolid(d, c);
    }
  }

  /** Two cells, a vehicle on one and a charger on the other: accepted, and the charger's cell is
      walkable for routes and solid for the run-time check. */
  lemma ChargerOnTheFloor()
    ensures var d := Design(2, 1, [], [Resource(ChargerGroup, Footprint(1, 0, 1, 1))], [], [Cell(0, 0)]);
            Typed(d) && Accepted(d) && IsWalkable(d, Cell(1, 0)) && IsSolid(d, Cell(1, 0))
  {
    var d := Design(2, 1, [], [Resource(ChargerGroup, Footprint(1, 0, 1, 1))], [], [Cell(0, 0)]);
    assert Occupies(d.resources[0].footprint, Cell(1, 0));
    assert Placed(d, 0);
  }

  lemma Apart(d: Design, n: nat, k: nat, c: Cell)
    requires Accepted(d) && n < |d.resources| && k < |d.resources| && n != k && Occupies(d.resources[k].footprint, c)
    ensures !Occupies(d.resources[n].footprint, c)
  {
    assert Placed(d, n) && Placed(d, k);
    assert n < k ==> !OffFloor(d, k, c);
    assert k < n ==> OffFloor(d, n, c);
  }

  /** How the scenario's geometry comes from the design; `ids` are the vehicles in design order. */
  ghost predicate Describes(d: Design, c: Scenario, ids: seq<AgvId>) {
    && (forall x :: x in c.solids <==> IsSolid(d, x)) && (forall x :: x in c.walkable <==> IsWalkable(d, x))
    && |d.agvs| == |ids| && (forall i :: 0 <= i < |ids| ==> ids[i] in c.start && c.start[ids[i]] == d.agvs[i])
    && (forall v :: v in c.start ==> v in ids)
  }

  /** An accepted design of machines and buffers establishes the simulator's geometric preconditions:
      vehicles start on distinct walkable cells, no walkable cell is solid, and ports are walkable. */
  lemma AcceptedGeometry(d: Design, c: Scenario, ids: seq<AgvId>)
    requires Typed(d) && Accepted(d) && ProductionOnly(d) && Describes(d, c, ids)
    ensures c.walkable !! c.solids && forall x :: x in d.ports ==> x in c.walkable
    ensures forall v, w {:trigger StartApart(c, v, w)} :: v in c.start && w in c.start ==> StartApart(c, v, w)
  {
    forall x | !OffFloor(d, |d.resources|, x) && Inside(d, x) ensures IsWalkable(d, x) {}
    forall v, w | v in c.start && w in c.start ensures StartApart(c, v, w) {
      var i :| 0 <= i < |ids| && ids[i] == v;
      var k :| 0 <= k < |ids| && ids[k] == w;
      assert d.agvs[i] in d.agvs;
      if i < k { assert d.agvs[i] != d.agvs[k]; }
      if k < i { assert d.agvs[k] != d.agvs[i]; }
    }
  }

  /** Accepted resources lie in the grid, so solid cells do. */
  lemma SolidIsInside(d: Design, x: Cell)
    requires Accepted(d) && IsSolid(d, x)
    ensures Inside(d, x)
  {
    if x !in d.blocked {
      var k :| 0 <= k < |d.resources| && Occupies(d.resources[k].footprint, x);
      assert Placed(d, k);
    }
  }
}
