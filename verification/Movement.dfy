/** Simultaneous grid moves. All vehicles move at once; a move is refused when it is contested or
    when it would enter a cell whose occupant stays. The refused set is a least fixpoint. */
module Movement {
  import opened Factory

  type Cells = map<AgvId, Cell>

  ghost predicate Distinct(cells: Cells) {
    forall v, w :: v in cells && w in cells && v != w ==> cells[v] != cells[w]
  }

  /** Two movers share the destination, or the mover and the occupant would swap. */
  predicate Contested(cells: Cells, moves: Cells, v: AgvId)
    requires moves.Keys <= cells.Keys
  {
    v in moves &&
    ((exists w :: w in moves && w != v && moves[w] == moves[v]) ||
     (exists w :: w in moves && cells[w] == moves[v] && moves[w] == cells[v]))
  }

  /** The destination is occupied by a vehicle that does not leave. */
  predicate Stuck(cells: Cells, moves: Cells, refused: set<AgvId>, v: AgvId) {
    v in moves && exists w :: w in cells && cells[w] == moves[v] && (w !in moves || w in refused)
  }

  function Contests(cells: Cells, moves: Cells): set<AgvId>
    requires moves.Keys <= cells.Keys
  {
    set v | v in moves && Contested(cells, moves, v)
  }

  function Spread(cells: Cells, moves: Cells, refused: set<AgvId>): set<AgvId> {
    refused + set v | v in moves && Stuck(cells, moves, refused, v)
  }

  ghost predicate Closed(cells: Cells, moves: Cells, refused: set<AgvId>) {
    forall v :: Stuck(cells, moves, refused, v) ==> v in refused
  }

  function Closure(cells: Cells, moves: Cells, refused: set<AgvId>): (r: set<AgvId>)
    requires refused <= moves.Keys
    ensures refused <= r <= moves.Keys && Closed(cells, moves, r)
    decreases moves.Keys - refused
  {
    var next := Spread(cells, moves, refused);
    if next == refused then
      assert Closed(cells, moves, refused) by {
        forall v | Stuck(cells, moves, refused, v) ensures v in refused { assert v in next; }
      }
      refused
    else Closure(cells, moves, next)
  }

  /** The refused moves: contested ones and everything queued up behind a vehicle that stays. */
  function Refused(cells: Cells, moves: Cells): (r: set<AgvId>)
    requires moves.Keys <= cells.Keys
    ensures r <= moves.Keys
  {
    Closure(cells, moves, Contests(cells, moves))
  }

  function Committed(cells: Cells, moves: Cells): (r: Cells)
    requires moves.Keys <= cells.Keys
    ensures r.Keys == cells.Keys
  {
    var refused := Refused(cells, moves);
    map v | v in cells :: if v in moves && v !in refused then moves[v] else cells[v]
  }

  lemma {:induction false} ClosureLeast(cells: Cells, moves: Cells, refused: set<AgvId>, bound: set<AgvId>)
    requires refused <= moves.Keys && refused <= bound && Closed(cells, moves, bound)
    ensures Closure(cells, moves, refused) <= bound
    decreases moves.Keys - refused
  {
    var next := Spread(cells, moves, refused);
    forall v | v in next ensures v in bound {
      if v !in refused {
        assert Stuck(cells, moves, bound, v);
      }
    }
    if next != refused {
      ClosureLeast(cells, moves, next, bound);
    }
  }

  /** The refused set is the least set that contains the contested moves and is closed under being
      stuck behind a vehicle that stays: no order of refusals can give another answer. */
  lemma RefusedIsLeastFixpoint(cells: Cells, moves: Cells, bound: set<AgvId>)
    requires moves.Keys <= cells.Keys
    ensures Contests(cells, moves) <= Refused(cells, moves) && Closed(cells, moves, Refused(cells, moves))
    ensures Contests(cells, moves) <= bound && Closed(cells, moves, bound) ==> Refused(cells, moves) <= bound
  {
    if Contests(cells, moves) <= bound && Closed(cells, moves, bound) {
      ClosureLeast(cells, moves, Contests(cells, moves), bound);
    }
  }

  /** Committing the accepted moves keeps all vehicles on distinct cells. */
  lemma CommitKeepsDistinct(cells: Cells, moves: Cells)
    requires moves.Keys <= cells.Keys && Distinct(cells)
    ensures Distinct(Committed(cells, moves))
  {
    var refused, after := Refused(cells, moves), Committed(cells, moves);
    forall v, w | v in cells && w in cells && v != w
      ensures after[v] != after[w]
    {
      if v in moves && v !in refused {
        Collision(cells, moves, v, w);
      } else if w in moves && w !in refused {
        Collision(cells, moves, w, v);
      }
    }
  }

  lemma Collision(cells: Cells, moves: Cells, v: AgvId, w: AgvId)
    requires moves.Keys <= cells.Keys && Distinct(cells) && v in cells && w in cells && v != w
    requires v in moves && v !in Refused(cells, moves)
    ensures Committed(cells, moves)[v] != Committed(cells, moves)[w]
  {
    var refused := Refused(cells, moves);
    assert !Contested(cells, moves, v) by { assert v !in Contests(cells, moves); }
    assert !Stuck(cells, moves, refused, v);
  }

  /** No two vehicles exchange cells. */
  lemma NoSwap(cells: Cells, moves: Cells, v: AgvId, w: AgvId)
    requires moves.Keys <= cells.Keys && Distinct(cells) && v in cells && w in cells && v != w
    ensures !(Committed(cells, moves)[v] == cells[w] && Committed(cells, moves)[w] == cells[v])
  {
    var refused := Refused(cells, moves);
    assert v in moves && v !in refused ==> !Contested(cells, moves, v) by {
      assert Contested(cells, moves, v) ==> v in Contests(cells, moves);
    }
  }

  /** Chains and rotations pass: any uncontested group of movers that only enters free cells or
      cells of its own members moves as one. */
  lemma SelfSupportingGroupsMove(cells: Cells, moves: Cells, group: set<AgvId>)
    requires moves.Keys <= cells.Keys && group <= moves.Keys
    requires forall v :: v in group ==> !Contested(cells, moves, v)
    requires forall v, w :: v in group && w in cells && cells[w] == moves[v] ==> w in group
    ensures group !! Refused(cells, moves)
    ensures forall v :: v in group ==> Committed(cells, moves)[v] == moves[v]
  {
    var bound := moves.Keys - group;
    assert Closed(cells, moves, bound);
    RefusedIsLeastFixpoint(cells, moves, bound);
  }

  /** A refused uncontested move is blocked, through a line of vehicles, by one that does not move. */
  lemma RefusedHasCause(cells: Cells, moves: Cells, v: AgvId)
    requires moves.Keys <= cells.Keys && v in Refused(cells, moves)
    ensures Contested(cells, moves, v) || Stuck(cells, moves, Refused(cells, moves), v)
  {
    var refused := Refused(cells, moves);
    if !Contested(cells, moves, v) && !Stuck(cells, moves, refused, v) {
      var bound := refused - {v};
      forall w | Stuck(cells, moves, bound, w) ensures w in bound {
        assert Stuck(cells, moves, refused, w);
      }
      RefusedIsLeastFixpoint(cells, moves, bound);
    }
  }

  /** The rejection loop: repeated passes over the movers, marking in place until nothing changes. */
  method Resolve(cells: Cells, moves: Cells, order: seq<AgvId>) returns (refused: set<AgvId>)
    requires moves.Keys <= cells.Keys && forall v :: v in moves ==> v in order
    ensures refused == Refused(cells, moves)
  {
    refused := {};
    for i := 0 to |order|
      invariant refused == set v | v in order[..i] && v in moves && Contested(cells, moves, v)
    {
      var v := order[i];
      if v in moves && Contested(cells, moves, v) {
        refused := refused + {v};
      }
    }
    assert refused == Contests(cells, moves);
    var changed := true;
    while changed
      invariant Contests(cells, moves) <= refused <= Refused(cells, moves)
      invariant !changed ==> Closed(cells, moves, refused)
      decreases moves.Keys - refused, changed
    {
      changed := false;
      ghost var before := refused;
      for i := 0 to |order|
        invariant Contests(cells, moves) <= refused <= Refused(cells, moves) && before <= refused
        invariant changed <==> before != refused
        invariant !changed ==> forall v :: v in order[..i] && Stuck(cells, moves, refused, v) ==> v in refused
      {
        var v := order[i];
        if v !in refused && Stuck(cells, moves, refused, v) {
          assert Stuck(cells, moves, Refused(cells, moves), v);
          refused := refused + {v};
          changed := true;
        }
      }
    }
    RefusedIsLeastFixpoint(cells, moves, refused);
  }
}
