/** What a joint move does to the vehicles, said with coordinates: who may go where, who is held back and
    by whom, and which vehicles surely go. */
module Driving {
  import opened Factory
  import opened Custody
  import opened Stepping
  import Movement

  /** `to` is the neighbouring cell in the direction of the action; rows are counted downwards. */
  predicate Neighbour(from: Cell, act: Action, to: Cell) {
    match act
    case Wait => false
    case Up => to.x == from.x && to.y == from.y - 1
    case Down => to.x == from.x && to.y == from.y + 1
    case Left => to.x == from.x - 1 && to.y == from.y
    case Right => to.x == from.x + 1 && to.y == from.y
  }

  /** The vehicle was sent to the cell, is not serving, and the cell is walkable. */
  predicate Sent(c: Scenario, agvs: Agvs, acts: Actions, v: AgvId, to: Cell) {
    v in agvs && v in acts && Neighbour(agvs[v].cell, acts[v], to) && agvs[v].service.None? && to in c.walkable
  }

  /** Another vehicle was sent to the same cell, or the one there was sent here. */
  ghost predicate Rivalled(c: Scenario, agvs: Agvs, acts: Actions, v: AgvId, to: Cell)
    requires v in agvs
  {
    || (exists w :: w != v && Sent(c, agvs, acts, w, to))
    || exists w :: Sent(c, agvs, acts, w, agvs[v].cell) && agvs[w].cell == to
  }

  /** The cell is that of a vehicle that stays. */
  ghost predicate Occupied(agvs: Agvs, after: Agvs, to: Cell) {
    exists w :: w in agvs && w in after && agvs[w].cell == to && after[w].cell == to
  }

  /** Vehicles go one step where they were sent, or stay; who was sent stays exactly if a rival or a
      vehicle that stays is in the way. */
  ghost predicate Driven(c: Scenario, agvs: Agvs, acts: Actions, after: Agvs) {
    && after.Keys == agvs.Keys
    && (forall v :: v in agvs && after[v].cell != agvs[v].cell ==> Sent(c, agvs, acts, v, after[v].cell))
    && (forall v, to {:trigger Sent(c, agvs, acts, v, to)} :: Sent(c, agvs, acts, v, to) ==>
          (after[v].cell == agvs[v].cell <==> Rivalled(c, agvs, acts, v, to) || Occupied(agvs, after, to)))
  }

  /** Every one of the group was sent somewhere without a rival, to a free cell or to the cell of another. */
  ghost predicate Convoy(c: Scenario, agvs: Agvs, acts: Actions, group: set<AgvId>) {
    forall v :: v in group ==> v in agvs && exists to :: Sent(c, agvs, acts, v, to) && !Rivalled(c, agvs, acts, v, to)
                                                         && forall w :: w in agvs && agvs[w].cell == to ==> w in group
  }

  // -- from the specification ------------------------------------------------------------------

  lemma MovesAreSent(c: Scenario, agvs: Agvs, acts: Actions, v: AgvId, to: Cell)
    ensures Sent(c, agvs, acts, v, to) <==> v in MovesOf(c, agvs, acts) && MovesOf(c, agvs, acts)[v] == to
  {
  }

  lemma ContestedMeans(c: Scenario, agvs: Agvs, acts: Actions, v: AgvId, to: Cell)
    requires Sent(c, agvs, acts, v, to)
    ensures Movement.Contested(CellsOf(agvs), MovesOf(c, agvs, acts), v) <==> Rivalled(c, agvs, acts, v, to)
  {
    var moves := MovesOf(c, agvs, acts);
    MovesAreSent(c, agvs, acts, v, to);
    forall w ensures Sent(c, agvs, acts, w, to) <==> w in moves && moves[w] == to { MovesAreSent(c, agvs, acts, w, to); }
    forall w ensures Sent(c, agvs, acts, w, agvs[v].cell) <==> w in moves && moves[w] == agvs[v].cell { MovesAreSent(c, agvs, acts, w, agvs[v].cell); }
    hide MovesOf, Sent;
  }

  /** Where everybody is after the moves that were not refused. */
  ghost predicate Committed(c: Scenario, agvs: Agvs, acts: Actions, moves: Movement.Cells, refused: set<AgvId>, after: Agvs) {
    && after.Keys == agvs.Keys && moves.Keys <= agvs.Keys
    && (forall w :: w in agvs ==> after[w].cell == if w in moves && w !in refused then moves[w] else agvs[w].cell)
    && forall w :: w in moves ==> moves[w] != agvs[w].cell
  }

  lemma NeverOwnCell(c: Scenario, agvs: Agvs, acts: Actions)
    ensures forall w :: w in MovesOf(c, agvs, acts) ==> MovesOf(c, agvs, acts)[w] != agvs[w].cell
  {
    forall w | w in MovesOf(c, agvs, acts) ensures MovesOf(c, agvs, acts)[w] != agvs[w].cell {
      MovesAreSent(c, agvs, acts, w, MovesOf(c, agvs, acts)[w]);
    }
  }

  lemma StuckMeans(c: Scenario, agvs: Agvs, acts: Actions, moves: Movement.Cells, refused: set<AgvId>, after: Agvs, v: AgvId)
    requires Committed(c, agvs, acts, moves, refused, after) && v in moves
    ensures Movement.Stuck(CellsOf(agvs), moves, refused, v) <==> Occupied(agvs, after, moves[v])
  {
    var cells := CellsOf(agvs);
    if w :| w in cells && cells[w] == moves[v] && (w !in moves || w in refused) {
      assert agvs[w].cell == moves[v] && after[w].cell == moves[v];
    }
    if w :| w in agvs && agvs[w].cell == moves[v] && after[w].cell == moves[v] {
      assert cells[w] == moves[v];
    }
  }

  lemma RefusedIff(cells: Movement.Cells, moves: Movement.Cells, v: AgvId)
    requires moves.Keys <= cells.Keys && v in moves
    ensures v in Movement.Refused(cells, moves) <==> Movement.Contested(cells, moves, v) || Movement.Stuck(cells, moves, Movement.Refused(cells, moves), v)
  {
    Movement.RefusedIsLeastFixpoint(cells, moves, {});
    if v in Movement.Refused(cells, moves) { Movement.RefusedHasCause(cells, moves, v); }
    assert Movement.Contested(cells, moves, v) ==> v in Movement.Contests(cells, moves);
  }

  lemma SentStays(c: Scenario, agvs: Agvs, acts: Actions, moves: Movement.Cells, refused: set<AgvId>, after: Agvs, v: AgvId, to: Cell)
    requires Sent(c, agvs, acts, v, to) && moves == MovesOf(c, agvs, acts) && refused == Movement.Refused(CellsOf(agvs), moves)
    requires Committed(c, agvs, acts, moves, refused, after)
    ensures after[v].cell == agvs[v].cell <==> Rivalled(c, agvs, acts, v, to) || Occupied(agvs, after, to)
  {
    hide Sent, MovesOf, Movement.Refused, Movement.Contested, Movement.Stuck, Rivalled, Occupied;
    MovesAreSent(c, agvs, acts, v, to);
    ContestedMeans(c, agvs, acts, v, to);
    RefusedIff(CellsOf(agvs), moves, v);
    StuckMeans(c, agvs, acts, moves, refused, after, v);
  }

  lemma MoveCommits(c: Scenario, s: State, acts: Actions, moves: Movement.Cells, refused: set<AgvId>)
    requires moves == MovesOf(c, s.agvs, acts) && refused == Movement.Refused(CellsOf(s.agvs), moves)
    ensures Committed(c, s.agvs, acts, moves, refused, Move(c, s, acts).agvs)
    ensures forall v :: v in s.agvs ==> Move(c, s, acts).agvs[v] == s.agvs[v].(cell := Move(c, s, acts).agvs[v].cell)
  {
    NeverOwnCell(c, s.agvs, acts);
    hide MovesOf, Movement.Refused, MoveEvents, RejectEvents;
  }

  /** The specified joint move drives the vehicles so, and changes only their cells. */
  lemma MoveIsDriven(c: Scenario, s: State, acts: Actions)
    ensures Driven(c, s.agvs, acts, Move(c, s, acts).agvs)
    ensures forall v :: v in s.agvs ==> Move(c, s, acts).agvs[v] == s.agvs[v].(cell := Move(c, s, acts).agvs[v].cell)
  {
    var moves, after := MovesOf(c, s.agvs, acts), Move(c, s, acts).agvs;
    var refused := Movement.Refused(CellsOf(s.agvs), moves);
    MoveCommits(c, s, acts, moves, refused);
    hide Move, MovesOf, Movement.Refused, Sent, Rivalled, Occupied;
    forall v | v in s.agvs && after[v].cell != s.agvs[v].cell ensures Sent(c, s.agvs, acts, v, after[v].cell) {
      MovesAreSent(c, s.agvs, acts, v, after[v].cell);
    }
    forall v, to | Sent(c, s.agvs, acts, v, to)
      ensures v in after && v in s.agvs && (after[v].cell == s.agvs[v].cell <==> Rivalled(c, s.agvs, acts, v, to) || Occupied(s.agvs, after, to))
    {
      SentKnown(c, s.agvs, acts, v, to);
      SentStays(c, s.agvs, acts, moves, refused, after, v, to);
    }
    forall v, to | Sent(c, s.agvs, acts, v, to) ensures v in s.agvs { SentKnown(c, s.agvs, acts, v, to); }
  }

  lemma SentKnown(c: Scenario, agvs: Agvs, acts: Actions, v: AgvId, to: Cell)
    requires Sent(c, agvs, acts, v, to)
    ensures v in agvs
  {
  }

  /** Chains and rotations go: no vehicle of a convoy is held back. */
  lemma ConvoyGoes(c: Scenario, s: State, acts: Actions, group: set<AgvId>)
    requires Convoy(c, s.agvs, acts, group)
    ensures forall v :: v in group ==> v in s.agvs && Sent(c, s.agvs, acts, v, Move(c, s, acts).agvs[v].cell)
  {
    var cells, moves, after := CellsOf(s.agvs), MovesOf(c, s.agvs, acts), Move(c, s, acts).agvs;
    MoveCommits(c, s, acts, moves, Movement.Refused(cells, moves));
    hide Move, Movement.Refused, Movement.Contested, MovesOf, Rivalled, Sent;
    forall v | v in group ensures v in moves && !Movement.Contested(cells, moves, v) && forall w :: w in cells && cells[w] == moves[v] ==> w in group {
      var to :| Sent(c, s.agvs, acts, v, to) && !Rivalled(c, s.agvs, acts, v, to) && forall w :: w in s.agvs && s.agvs[w].cell == to ==> w in group;
      MovesAreSent(c, s.agvs, acts, v, to);
      ContestedMeans(c, s.agvs, acts, v, to);
    }
    Movement.SelfSupportingGroupsMove(cells, moves, group);
    forall v | v in group ensures Sent(c, s.agvs, acts, v, after[v].cell) { MovesAreSent(c, s.agvs, acts, v, after[v].cell); }
  }

  // -- what is reported ------------------------------------------------------------------------

  ghost predicate MoveTold(agvs: Agvs, after: Agvs, tick: int, told: seq<Event>) {
    forall v, from, to {:trigger Moved(tick, v, from, to)} ::
      Moved(tick, v, from, to) in told <==> v in agvs && v in after && agvs[v].cell == from && after[v].cell == to && from != to
  }

  ghost predicate ConflictTold(c: Scenario, agvs: Agvs, acts: Actions, after: Agvs, tick: int, told: seq<Event>) {
    forall v {:trigger Rejected(tick, v, true)} ::
      Rejected(tick, v, true) in told <==> v in agvs && v in after && after[v].cell == agvs[v].cell && exists to :: Sent(c, agvs, acts, v, to)
  }

  ghost predicate InvalidTold(c: Scenario, agvs: Agvs, acts: Actions, tick: int, told: seq<Event>) {
    forall v {:trigger Rejected(tick, v, false)} ::
      Rejected(tick, v, false) in told <==> v in agvs && v in acts && !acts[v].Wait? && forall to :: !Sent(c, agvs, acts, v, to)
  }

  /** Exactly the moves are reported, the held back vehicles as conflicts, and the others sent where they
      may not go as invalid. */
  ghost predicate Reported(c: Scenario, agvs: Agvs, acts: Actions, after: Agvs, tick: int, told: seq<Event>) {
    MoveTold(agvs, after, tick, told) && ConflictTold(c, agvs, acts, after, tick, told) && InvalidTold(c, agvs, acts, tick, told)
  }

  lemma {:induction false} MovesListed(c: Scenario, s: State, acts: Actions, ids: seq<AgvId>, e: Event)
    ensures var cells, moves := CellsOf(s.agvs), MovesOf(c, s.agvs, acts);
            e in MoveEvents(c, s, acts, ids) <==>
              exists v :: v in ids && v in moves && v !in Movement.Refused(cells, moves) && v in s.agvs && e == Moved(s.tick, v, s.agvs[v].cell, moves[v])
  {
    hide CellsOf, MovesOf, Movement.Refused;
    if ids != [] {
      MovesListed(c, s, acts, ids[1..], e);
      assert forall v :: v in ids <==> v == ids[0] || v in ids[1..];
    }
  }

  lemma {:induction false} RejectsListed(c: Scenario, s: State, acts: Actions, ids: seq<AgvId>, e: Event)
    ensures var cells, moves := CellsOf(s.agvs), MovesOf(c, s.agvs, acts);
            e in RejectEvents(c, s, acts, ids) <==>
              exists v :: v in ids && ((v in Movement.Refused(cells, moves) && e == Rejected(s.tick, v, true))
                                       || (v !in Movement.Refused(cells, moves) && v in s.agvs && !Permitted(c, s.agvs[v], ActionOf(acts, v))
                                           && e == Rejected(s.tick, v, false)))
  {
    hide CellsOf, MovesOf, Movement.Refused, Permitted, ActionOf;
    if ids != [] {
      RejectsListed(c, s, acts, ids[1..], e);
      assert forall v :: v in ids <==> v == ids[0] || v in ids[1..];
    }
  }

  /** A forbidden action is one that leads nowhere. */
  lemma ForbiddenMeans(c: Scenario, agvs: Agvs, acts: Actions, v: AgvId)
    requires v in agvs
    ensures !Permitted(c, agvs[v], ActionOf(acts, v)) <==> v in acts && !acts[v].Wait? && forall to :: !Sent(c, agvs, acts, v, to)
  {
    if Permitted(c, agvs[v], ActionOf(acts, v)) && v in acts && !acts[v].Wait? {
      assert Sent(c, agvs, acts, v, Shift(agvs[v].cell, acts[v]));
    }
  }

  lemma MoveLogs(c: Scenario, s: State, acts: Actions)
    ensures Move(c, s, acts).log == s.log + (MoveEvents(c, s, acts, c.agvIds) + RejectEvents(c, s, acts, c.agvIds))
  {
    hide MovesOf, CellsOf, MoveEvents, RejectEvents, Movement.Committed;
  }

  lemma MoveReports(c: Scenario, s: State, acts: Actions)
    requires forall v :: v in s.agvs <==> v in c.agvIds
    ensures var t := Move(c, s, acts); s.log <= t.log && Reported(c, s.agvs, acts, t.agvs, s.tick, t.log[|s.log|..])
  {
    hide *;
    var cells, moves, t := CellsOf(s.agvs), MovesOf(c, s.agvs, acts), Move(c, s, acts);
    var refused := Movement.Refused(cells, moves);
    MoveCommits(c, s, acts, moves, refused);
    MoveLogs(c, s, acts);
    Reports(c, s, acts, moves, refused, t.agvs, t.log[|s.log|..]);
  }

  lemma Reports(c: Scenario, s: State, acts: Actions, moves: Movement.Cells, refused: set<AgvId>, after: Agvs, told: seq<Event>)
    requires moves == MovesOf(c, s.agvs, acts) && refused == Movement.Refused(CellsOf(s.agvs), moves) && Committed(c, s.agvs, acts, moves, refused, after)
    requires told == MoveEvents(c, s, acts, c.agvIds) + RejectEvents(c, s, acts, c.agvIds) && forall v :: v in s.agvs <==> v in c.agvIds
    ensures Reported(c, s.agvs, acts, after, s.tick, told)
  {
    hide MovesOf, Movement.Refused, CellsOf, MoveEvents, RejectEvents, Permitted, Sent;
    forall v, from, to ensures Moved(s.tick, v, from, to) in told <==> v in s.agvs && v in after && s.agvs[v].cell == from && after[v].cell == to && from != to {
      MovesListed(c, s, acts, c.agvIds, Moved(s.tick, v, from, to));
      RejectsListed(c, s, acts, c.agvIds, Moved(s.tick, v, from, to));
    }
    forall v
      ensures Rejected(s.tick, v, true) in told <==>
              v in s.agvs && v in after && after[v].cell == s.agvs[v].cell && exists to :: Sent(c, s.agvs, acts, v, to)
    {
      MovesListed(c, s, acts, c.agvIds, Rejected(s.tick, v, true));
      RejectsListed(c, s, acts, c.agvIds, Rejected(s.tick, v, true));
      SentSomewhere(c, s.agvs, acts, v);
    }
    forall v ensures Rejected(s.tick, v, false) in told <==> v in s.agvs && v in acts && !acts[v].Wait? && forall to :: !Sent(c, s.agvs, acts, v, to) {
      MovesListed(c, s, acts, c.agvIds, Rejected(s.tick, v, false));
      RejectsListed(c, s, acts, c.agvIds, Rejected(s.tick, v, false));
      SentSomewhere(c, s.agvs, acts, v);
      if v in s.agvs { ForbiddenMeans(c, s.agvs, acts, v); }
    }
  }

  lemma SentSomewhere(c: Scenario, agvs: Agvs, acts: Actions, v: AgvId)
    ensures (exists to :: Sent(c, agvs, acts, v, to)) <==> v in MovesOf(c, agvs, acts)
  {
    forall to ensures Sent(c, agvs, acts, v, to) <==> v in MovesOf(c, agvs, acts) && MovesOf(c, agvs, acts)[v] == to { MovesAreSent(c, agvs, acts, v, to); }
    if v in MovesOf(c, agvs, acts) { assert Sent(c, agvs, acts, v, MovesOf(c, agvs, acts)[v]); }
  }
}
