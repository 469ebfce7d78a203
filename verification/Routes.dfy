/** Static routes: breadth-first distances to a set of goals, and the two caches in front of them. */
module Routes {
  import opened Collections
  import opened Factory

  // -- distances as levels ---------------------------------------------------------------------

  function Neighbors(walkable: set<Cell>, c: Cell): seq<Cell> {
    Filtered(walkable, [Cell(c.x + 1, c.y), Cell(c.x - 1, c.y), Cell(c.x, c.y + 1), Cell(c.x, c.y - 1)])
  }

  function Filtered(walkable: set<Cell>, cells: seq<Cell>): (r: seq<Cell>)
    ensures forall c :: c in r <==> c in cells && c in walkable
  {
    if cells == [] then [] else (if cells[0] in walkable then [cells[0]] else []) + Filtered(walkable, cells[1..])
  }

  /** One grid move. */
  predicate Step(a: Cell, b: Cell) {
    (a.y == b.y && (a.x == b.x + 1 || a.x == b.x - 1)) || (a.x == b.x && (a.y == b.y + 1 || a.y == b.y - 1))
  }

  lemma NeighborsAreSteps(walkable: set<Cell>, c: Cell, n: Cell)
    ensures n in Neighbors(walkable, c) <==> n in walkable && Step(c, n)
  {
  }

  /** A walk of `|path| - 1` moves over walkable cells from its first cell to a goal. */
  predicate Walk(walkable: set<Cell>, goals: set<Cell>, path: seq<Cell>) {
    && path != [] && path[|path| - 1] in goals
    && (forall i :: 0 <= i < |path| ==> path[i] in walkable)
    && forall i :: 0 <= i < |path| - 1 ==> Step(path[i], path[i + 1])
  }

  /** Cells from which a goal can be reached in at most `n` moves, level by level. */
  ghost predicate Within(walkable: set<Cell>, goals: set<Cell>, c: Cell, n: nat)
    decreases n
  {
    || (c in goals && c in walkable)
    || (n > 0 && c in walkable && exists p :: p in walkable && Step(c, p) && Within(walkable, goals, p, n - 1))
  }

  lemma {:induction false} WithinMore(walkable: set<Cell>, goals: set<Cell>, c: Cell, n: nat, m: nat)
    requires Within(walkable, goals, c, n) && n <= m
    ensures Within(walkable, goals, c, m)
    decreases n
  {
    if !(c in goals && c in walkable) {
      var p :| p in walkable && Step(c, p) && Within(walkable, goals, p, n - 1);
      WithinMore(walkable, goals, p, n - 1, m - 1);
    }
  }

  /** Levels and walks agree. */
  lemma {:induction false} WithinIsWalk(walkable: set<Cell>, goals: set<Cell>, c: Cell, n: nat)
    ensures Within(walkable, goals, c, n) <==> exists path :: Walk(walkable, goals, path) && path[0] == c && |path| <= n + 1
    decreases n
  {
    if Within(walkable, goals, c, n) {
      if c in goals && c in walkable {
        assert Walk(walkable, goals, [c]) && [c][0] == c;
      } else {
        var p :| p in walkable && Step(c, p) && Within(walkable, goals, p, n - 1);
        WithinIsWalk(walkable, goals, p, n - 1);
        var rest :| Walk(walkable, goals, rest) && rest[0] == p && |rest| <= n;
        assert Walk(walkable, goals, [c] + rest) && ([c] + rest)[0] == c;
      }
    }
    if path :| Walk(walkable, goals, path) && path[0] == c && |path| <= n + 1 {
      if |path| > 1 {
        assert Walk(walkable, goals, path[1..]) && path[1..][0] == path[1] && Step(c, path[1]);
        WithinIsWalk(walkable, goals, path[1], n - 1);
      }
    }
  }

  /** The least number of moves from `c` to a goal. */
  ghost predicate Least(walkable: set<Cell>, goals: set<Cell>, c: Cell, n: nat) {
    Within(walkable, goals, c, n) && (n > 0 ==> !Within(walkable, goals, c, n - 1))
  }

  /** Exactly the cells that can reach a goal, each with its least number of moves. */
  ghost predicate Exact(walkable: set<Cell>, goals: set<Cell>, d: map<Cell, nat>) {
    && (forall c :: c in d ==> Least(walkable, goals, c, d[c]))
    && forall c, n {:trigger Within(walkable, goals, c, n)} :: Within(walkable, goals, c, n) ==> c in d
  }

  lemma LeastUnique(walkable: set<Cell>, goals: set<Cell>, c: Cell, m: nat, n: nat)
    requires Least(walkable, goals, c, m) && Least(walkable, goals, c, n)
    ensures m == n
  {
    if m < n { WithinMore(walkable, goals, c, m, n - 1); }
    if n < m { WithinMore(walkable, goals, c, n, m - 1); }
  }

  /** Exact distance maps are unique. */
  lemma ExactUnique(walkable: set<Cell>, goals: set<Cell>, d: map<Cell, nat>, e: map<Cell, nat>)
    requires Exact(walkable, goals, d) && Exact(walkable, goals, e)
    ensures d == e
  {
    forall c ensures c in d <==> c in e {
      if c in d { assert Within(walkable, goals, c, d[c]); }
      if c in e { assert Within(walkable, goals, c, e[c]); }
    }
    forall c | c in d ensures d[c] == e[c] { LeastUnique(walkable, goals, c, d[c], e[c]); }
  }

  // -- breadth-first search --------------------------------------------------------------------

  /** Everything recorded so far is a least distance. */
  ghost predicate Recorded(walkable: set<Cell>, goals: set<Cell>, d: map<Cell, nat>) {
    d.Keys <= walkable && goals <= d.Keys && forall c :: c in d ==> Least(walkable, goals, c, d[c])
  }

  /** The queue holds recorded cells in order of distance, at most one level apart. */
  ghost predicate Layered(d: map<Cell, nat>, queue: seq<Cell>) {
    && (forall i {:trigger queue[i]} :: 0 <= i < |queue| ==> queue[i] in d)
    && (forall i, k {:trigger queue[i], queue[k]} :: 0 <= i < k < |queue| ==> d[queue[i]] <= d[queue[k]] && queue[i] != queue[k])
    && (queue != [] ==> d[queue[|queue| - 1]] <= d[queue[0]] + 1)
  }

  /** The neighbors of `c` are recorded no farther than one move beyond it. */
  ghost predicate Explored(walkable: set<Cell>, d: map<Cell, nat>, c: Cell)
    requires c in d
  {
    forall p {:trigger Step(c, p)} :: p in walkable && Step(c, p) ==> p in d && d[p] <= d[c] + 1
  }

  ghost predicate Explores(walkable: set<Cell>, d: map<Cell, nat>, queue: seq<Cell>) {
    forall c {:trigger Explored(walkable, d, c)} :: c in d && c !in queue ==> Explored(walkable, d, c)
  }

  lemma HeadNearest(d: map<Cell, nat>, queue: seq<Cell>, p: Cell)
    requires Layered(d, queue)
    ensures p in queue ==> p in d && d[queue[0]] <= d[p]
  {
    if p in queue {
      var i :| 0 <= i < |queue| && queue[i] == p;
      assert queue[0] in d;
    }
  }

  /** All cells up to the level of the queue's head are recorded. */
  lemma {:induction false} LevelsDone(walkable: set<Cell>, goals: set<Cell>, d: map<Cell, nat>, queue: seq<Cell>, c: Cell, n: nat)
    requires Recorded(walkable, goals, d) && Layered(d, queue) && Explores(walkable, d, queue)
    requires Within(walkable, goals, c, n) && (queue != [] ==> n <= d[queue[0]])
    ensures c in d && d[c] <= n
    decreases n
  {
    if c in goals && c in walkable {
      assert Least(walkable, goals, c, d[c]);
    } else {
      var p :| p in walkable && Step(c, p) && Within(walkable, goals, p, n - 1);
      LevelsDone(walkable, goals, d, queue, p, n - 1);
      HeadNearest(d, queue, p);
      assert Explored(walkable, d, p) && Step(p, c);
    }
  }

  /** A cell first seen from the head of the queue lies exactly one level farther. */
  lemma NextLevel(walkable: set<Cell>, goals: set<Cell>, d: map<Cell, nat>, queue: seq<Cell>, c: Cell, p: Cell)
    requires Recorded(walkable, goals, d) && Layered(d, queue) && Explores(walkable, d, queue)
    requires queue != [] && queue[0] == c && p in walkable && Step(c, p) && p !in d
    ensures Least(walkable, goals, p, d[c] + 1)
  {
    assert Within(walkable, goals, c, d[c]) && Step(p, c);
    if Within(walkable, goals, p, d[c]) { LevelsDone(walkable, goals, d, queue, p, d[c]); }
  }

  lemma SearchDone(walkable: set<Cell>, goals: set<Cell>, d: map<Cell, nat>)
    requires Recorded(walkable, goals, d) && Explores(walkable, d, [])
    ensures Exact(walkable, goals, d)
  {
    forall c, n: nat | Within(walkable, goals, c, n) ensures c in d { LevelsDone(walkable, goals, d, [], c, n); }
  }

  /** The search loop, while the neighbors of the removed head `c` are being examined: those from
      `i` on are still open. */
  ghost predicate Searching(walkable: set<Cell>, goals: set<Cell>, d: map<Cell, nat>, queue: seq<Cell>, c: Cell, todo: seq<Cell>) {
    && Recorded(walkable, goals, d) && c in d && Layered(d, [c] + queue)
    && (forall x {:trigger Explored(walkable, d, x)} :: x in d && x !in queue && x != c ==> Explored(walkable, d, x))
    && forall p {:trigger Step(c, p)} :: p in walkable && Step(c, p) && p !in todo ==> p in d && d[p] <= d[c] + 1
  }

  lemma SearchRecords(walkable: set<Cell>, goals: set<Cell>, d: map<Cell, nat>, queue: seq<Cell>, c: Cell, p: Cell, todo: seq<Cell>)
    requires Searching(walkable, goals, d, queue, c, [p] + todo) && p in walkable && Step(c, p) && p !in d
    ensures Searching(walkable, goals, d[p := d[c] + 1], queue + [p], c, todo)
  {
    var e := d[p := d[c] + 1];
    assert Explores(walkable, d, [c] + queue);
    NextLevel(walkable, goals, d, [c] + queue, c, p);
    var all, more := [c] + queue, [c] + (queue + [p]);
    assert more == all + [p];
    forall i, k | 0 <= i < k < |more| ensures e[more[i]] <= e[more[k]] && more[i] != more[k] {
      if k == |all| {
        assert d[all[i]] <= d[all[|all| - 1]] <= d[c] + 1;
      } else {
        assert all[i] != all[k];
      }
    }
    forall x | x in e && x !in queue + [p] && x != c ensures Explored(walkable, e, x) {
      assert Explored(walkable, d, x);
    }
  }

  lemma SearchSkips(walkable: set<Cell>, goals: set<Cell>, d: map<Cell, nat>, queue: seq<Cell>, c: Cell, p: Cell, todo: seq<Cell>)
    requires Searching(walkable, goals, d, queue, c, [p] + todo) && p in d && p in walkable && Step(c, p)
    ensures Searching(walkable, goals, d, queue, c, todo)
  {
    assert Explores(walkable, d, [c] + queue);
    if d[p] > d[c] + 1 {
      assert Within(walkable, goals, p, d[c] + 1) by { assert Within(walkable, goals, c, d[c]) && Step(p, c); }
      WithinMore(walkable, goals, p, d[c] + 1, d[p] - 1);
    }
  }

  lemma SearchKnows(walkable: set<Cell>, goals: set<Cell>, d: map<Cell, nat>, queue: seq<Cell>, c: Cell, todo: seq<Cell>)
    requires Searching(walkable, goals, d, queue, c, todo)
    ensures c in d && d.Keys <= walkable
  {
  }

  lemma HeadRemoved(walkable: set<Cell>, goals: set<Cell>, d: map<Cell, nat>, queue: seq<Cell>)
    requires Recorded(walkable, goals, d) && Layered(d, queue) && Explores(walkable, d, queue) && queue != []
    ensures Searching(walkable, goals, d, queue[1..], queue[0], Neighbors(walkable, queue[0]))
  {
    assert [queue[0]] + queue[1..] == queue;
    forall p | p in walkable && Step(queue[0], p) ensures p in Neighbors(walkable, queue[0]) { NeighborsAreSteps(walkable, queue[0], p); }
  }

  lemma HeadDone(walkable: set<Cell>, goals: set<Cell>, d: map<Cell, nat>, queue: seq<Cell>, c: Cell)
    requires Searching(walkable, goals, d, queue, c, [])
    ensures Recorded(walkable, goals, d) && Layered(d, queue) && Explores(walkable, d, queue)
  {
    var all := [c] + queue;
    forall i | 0 <= i < |queue| ensures queue[i] in d { assert all[i + 1] == queue[i]; }
    forall i, k | 0 <= i < k < |queue| ensures d[queue[i]] <= d[queue[k]] && queue[i] != queue[k] {
      assert all[i + 1] == queue[i] && all[k + 1] == queue[k];
    }
    if queue != [] { assert all[|all| - 1] == queue[|queue| - 1] && all[0] == c && all[1] == queue[0]; }
    assert Explored(walkable, d, c);
  }

  // -- the object and its caches ---------------------------------------------------------------

  /** `StaticRoutes`; the cache key of a goal list is its sorted set, here the set itself. */
  class StaticRoutes<Owner(==)> {
    const walkable: set<Cell>
    var ports: map<Owner, seq<Cell>>
    var cache: map<set<Cell>, map<Cell, nat>>
    var ownerGoals: map<Owner, (seq<Cell>, set<Cell>)>

    /** Cached maps are exact, remembered goals are those of the remembered ports. */
    ghost predicate Valid()
      reads this
    {
      && (forall g {:trigger cache[g]} :: g in cache ==> Exact(walkable, g, cache[g]))
      && (forall o {:trigger ownerGoals[o]} :: o in ownerGoals ==> ownerGoals[o].1 == SetOf(ownerGoals[o].0))
    }

    constructor (cells: set<Cell>, owned: map<Owner, seq<Cell>>)
      ensures Valid() && walkable == cells && ports == owned
    {
      walkable, ports, cache, ownerGoals := cells, owned, map[], map[];
    }

    /** The ports may be replaced between queries. */
    method Replace(owned: map<Owner, seq<Cell>>)
      requires Valid()
      modifies `ports
      ensures Valid() && ports == owned
    {
      ports := owned;
    }

    /** Entries of the distance cache may be dropped between queries; the goal cache survives. */
    method Forget(keys: set<set<Cell>>)
      requires Valid()
      modifies `cache
      ensures Valid() && cache == old(cache) - keys
    {
      cache := cache - keys;
    }

    /** All goals are at distance zero. */
    method Sources(goals: set<Cell>) returns (d: map<Cell, nat>, queue: seq<Cell>)
      requires goals <= walkable
      ensures Recorded(walkable, goals, d) && Layered(d, queue) && Explores(walkable, d, queue)
    {
      d := map c | c in goals :: 0;
      queue := [];
      var rest := goals;
      while rest != {}
        invariant rest <= goals && (forall c :: c in queue <==> c in goals - rest) && Layered(d, queue)
        decreases rest
      {
        var c :| c in rest;
        forall i | 0 <= i < |queue| ensures queue[i] != c { assert queue[i] in queue; }
        queue, rest := queue + [c], rest - {c};
      }
      forall c | c in d ensures Least(walkable, goals, c, d[c]) {}
    }

    /** Records the neighbors of the removed head that were not seen before. */
    method Expand(ghost goals: set<Cell>, known: map<Cell, nat>, rest: seq<Cell>, c: Cell) returns (d: map<Cell, nat>, queue: seq<Cell>)
      requires Searching(walkable, goals, known, rest, c, Neighbors(walkable, c))
      ensures Recorded(walkable, goals, d) && Layered(d, queue) && Explores(walkable, d, queue)
      ensures known.Keys <= d.Keys && (known.Keys == d.Keys ==> |queue| == |rest|)
    {
      hide *;
      SearchKnows(walkable, goals, known, rest, c, Neighbors(walkable, c));
      d, queue := known, rest;
      var nearby := Neighbors(walkable, c);
      assert nearby[0..] == nearby;
      for i := 0 to |nearby|
        invariant Searching(walkable, goals, d, queue, c, nearby[i..]) && c in d
        invariant known.Keys <= d.Keys && (known.Keys == d.Keys ==> |queue| == |rest|)
      {
        var n := nearby[i];
        NeighborsAreSteps(walkable, c, n);
        assert nearby[i..] == [n] + nearby[i + 1..] && n in nearby;
        if n !in d {
          SearchRecords(walkable, goals, d, queue, c, n, nearby[i + 1..]);
          d := d[n := d[c] + 1];
          queue := queue + [n];
          assert n !in known.Keys;
        } else {
          SearchSkips(walkable, goals, d, queue, c, n, nearby[i + 1..]);
        }
      }
      assert nearby[|nearby|..] == [];
      HeadDone(walkable, goals, d, queue, c);
    }

    /** `distances` on a cache miss. */
    method Search(goals: set<Cell>) returns (d: map<Cell, nat>)
      requires goals <= walkable
      ensures Exact(walkable, goals, d)
    {
      var queue: seq<Cell>;
      d, queue := Sources(goals);
      while queue != []
        invariant Recorded(walkable, goals, d) && Layered(d, queue) && Explores(walkable, d, queue)
        decreases walkable - d.Keys, |queue|
      {
        HeadRemoved(walkable, goals, d, queue);
        d, queue := Expand(goals, d, queue[1..], queue[0]);
      }
      SearchDone(walkable, goals, d);
    }

    /** `distances` */
    method Distances(goals: seq<Cell>) returns (d: map<Cell, nat>)
      requires Valid() && SetOf(goals) <= walkable
      modifies `cache
      ensures Valid() && Exact(walkable, SetOf(goals), d) && SetOf(goals) in cache && cache[SetOf(goals)] == d
    {
      var key := SetOf(goals);
      if key !in cache {
        var found := Search(key);
        cache := cache[key := found];
      }
      d := cache[key];
    }

    /** `_distances_to_owner`: goes through both caches. */
    method DistancesToOwner(owner: Owner) returns (d: map<Cell, nat>)
      requires Valid() && owner in ports && SetOf(ports[owner]) <= walkable
      modifies `cache, `ownerGoals
      ensures Valid() && Exact(walkable, SetOf(ports[owner]), d)
    {
      var current := ports[owner];
      if owner !in ownerGoals || ownerGoals[owner].0 != current {
        ownerGoals := ownerGoals[owner := (current, SetOf(current))];
      }
      var goals := ownerGoals[owner].1;
      if goals !in cache {
        d := Distances(current);
      } else {
        d := cache[goals];
      }
    }

    /** `to_owner`: the least number of moves to the nearest of the owner's current ports, if any. */
    method ToOwner(cell: Cell, owner: Owner) returns (n: Option<nat>)
      requires Valid() && owner in ports && SetOf(ports[owner]) <= walkable
      modifies `cache, `ownerGoals
      ensures Valid()
      ensures NearestPort(walkable, ports[owner], cell, n)
    {
      var d := DistancesToOwner(owner);
      n := if cell in d then Some(d[cell]) else None;
      GoalsArePorts(walkable, ports[owner], d, cell);
    }

    /** `between`: the nearest pair of ports; without ports at the origin the query is an error. */
    method Between(origin: Owner, destination: Owner) returns (ok: bool, n: Option<nat>)
      requires Valid() && origin in ports && destination in ports && SetOf(ports[destination]) <= walkable
      modifies `cache, `ownerGoals
      ensures Valid()
      ensures ok <==> ports[origin] != []
      ensures ok ==> Nearest(walkable, SetOf(ports[destination]), ports[origin], n)
    {
      if ports[origin] == [] { return false, None; }
      var d := DistancesToOwner(destination);
      ok, n := true, None;
      for i := 0 to |ports[origin]|
        invariant ports == old(ports) && ok && Valid() && Exact(walkable, SetOf(ports[destination]), d)
        invariant Nearest(walkable, SetOf(ports[destination]), ports[origin][..i], n)
      {
        var p := ports[origin][i];
        assert ports[origin][..i + 1] == ports[origin][..i] + [p];
        NearestMore(walkable, SetOf(ports[destination]), ports[origin][..i], n, d, p);
        if p in d && (n.None? || d[p] < n.value) { n := Some(d[p]); }
      }
      assert ports[origin][..|ports[origin]|] == ports[origin];
    }
  }

  /** The least distance from the cell to any single port. */
  ghost predicate NearestPort(walkable: set<Cell>, ports: seq<Cell>, cell: Cell, n: Option<nat>) {
    match n
    case None => forall p, m {:trigger Within(walkable, {p}, cell, m)} :: p in ports ==> !Within(walkable, {p}, cell, m)
    case Some(k) =>
      && (exists p :: p in ports && Least(walkable, {p}, cell, k))
      && forall p, m {:trigger Within(walkable, {p}, cell, m)} :: p in ports && Within(walkable, {p}, cell, m) ==> k <= m
  }

  lemma GoalsArePorts(walkable: set<Cell>, ports: seq<Cell>, d: map<Cell, nat>, cell: Cell)
    requires Exact(walkable, SetOf(ports), d)
    ensures NearestPort(walkable, ports, cell, if cell in d then Some(d[cell]) else None)
  {
    forall p, m: nat | p in ports && Within(walkable, {p}, cell, m) ensures cell in d && d[cell] <= m {
      NearestGoal(walkable, SetOf(ports), cell, m);
      if d[cell] > m { WithinMore(walkable, SetOf(ports), cell, m, d[cell] - 1); }
    }
    if cell in d {
      NearestGoal(walkable, SetOf(ports), cell, d[cell]);
      var p :| p in SetOf(ports) && Within(walkable, {p}, cell, d[cell]);
      assert p in ports && Least(walkable, {p}, cell, d[cell]);
    }
  }

  /** The least distance over all the cells. */
  ghost predicate Nearest(walkable: set<Cell>, goals: set<Cell>, cells: seq<Cell>, n: Option<nat>) {
    match n
    case None => forall c, k {:trigger Within(walkable, goals, c, k)} :: c in cells ==> !Within(walkable, goals, c, k)
    case Some(k) =>
      && (exists c :: c in cells && Least(walkable, goals, c, k))
      && forall c, m {:trigger Within(walkable, goals, c, m)} :: c in cells && Within(walkable, goals, c, m) ==> k <= m
  }

  lemma NearestMore(walkable: set<Cell>, goals: set<Cell>, cells: seq<Cell>, n: Option<nat>, d: map<Cell, nat>, p: Cell)
    requires Nearest(walkable, goals, cells, n) && Exact(walkable, goals, d)
    ensures Nearest(walkable, goals, cells + [p], if p in d && (n.None? || d[p] < n.value) then Some(d[p]) else n)
  {
    forall m: nat | Within(walkable, goals, p, m) ensures p in d && d[p] <= m {
      if d[p] > m { WithinMore(walkable, goals, p, m, d[p] - 1); }
    }
    if p in d && (n.None? || d[p] < n.value) {
      assert p in cells + [p] && Least(walkable, goals, p, d[p]);
    } else if n.Some? {
      var c :| c in cells && Least(walkable, goals, c, n.value);
      assert c in cells + [p];
    }
  }

  /** The distance to a set of goals is the least of the distances to its members. */
  lemma {:induction false} NearestGoal(walkable: set<Cell>, goals: set<Cell>, c: Cell, n: nat)
    ensures Within(walkable, goals, c, n) <==> exists g :: g in goals && Within(walkable, {g}, c, n)
    decreases n
  {
    if Within(walkable, goals, c, n) {
      if c in goals && c in walkable {
        assert Within(walkable, {c}, c, n);
      } else {
        var p :| p in walkable && Step(c, p) && Within(walkable, goals, p, n - 1);
        NearestGoal(walkable, goals, p, n - 1);
        var g :| g in goals && Within(walkable, {g}, p, n - 1);
        assert Within(walkable, {g}, c, n);
      }
    }
    if g :| g in goals && Within(walkable, {g}, c, n) {
      if c != g {
        var p :| p in walkable && Step(c, p) && Within(walkable, {g}, p, n - 1);
        NearestGoal(walkable, goals, p, n - 1);
      }
    }
  }
}
