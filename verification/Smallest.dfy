/** The smallest factory the preconditions admit: one machine, one vehicle, one order. */
module Smallest {
  import opened Collections
  import opened Availability
  import opened Factory

  const PLAIN := Mode(1.0, 0.0)
  const DRILL := Machine({0}, 1.0, map[0 := PLAIN])
  const ORDER := Demand([Step(0, 5.0, map[])], 0, 20, 0)

  function Pooled(role: Role, room: Option<nat>): Buffer {
    Buffer(role, [0], [0], map[0 := room])
  }

  function Workshop(central: bool): Scenario {
    Scenario([0], map[0 := DRILL],
             [0, 1, 2, 3], map[0 := Pooled(Input, None), 1 := Pooled(Output, None), 2 := Pooled(Pre(0), Some(1)), 3 := Pooled(Post(0), Some(1))],
             map[0 := 2], map[0 := 3],
             [0], map[0 := Cell(0, 0)],
             {Cell(1, 1)}, {Cell(0, 0), Cell(1, 0)}, map[0 := {Cell(0, 0)}, 1 := {Cell(0, 0)}, 2 := {Cell(1, 0)}, 3 := {Cell(1, 0)}],
             [0], map[0 := ORDER],
             [Outage(0, 3, 6)], true, 100, 1.0,
             1.0, 1.0, true,
             (j, n) => 0.5, (j, n) => 0.5, map[],
             (cell, owner) => true, central)
  }

  lemma OneIsDistinct(x: nat)
    ensures NoDup([x]) && SetOf([x]) == {x}
  {
    assert multiset([x]) == multiset{x};
  }

  lemma FourAreDistinct()
    ensures NoDup<nat>([0, 1, 2, 3]) && SetOf<nat>([0, 1, 2, 3]) == {0, 1, 2, 3}
  {
    var q: seq<nat> := [0, 1, 2, 3];
    assert multiset(q) == multiset{0, 1, 2, 3};
  }

  lemma Buffers(central: bool, b: BufferId)
    requires b in Workshop(central).buffers
    ensures GoodBuffer(Workshop(central), b)
  {
    OneIsDistinct(0);
    hide NoDup;
  }

  lemma Identifiers(central: bool)
    ensures var c := Workshop(central);
            && c.machineIds == [0] && c.machines.Keys == {0} && c.agvIds == [0] && c.start.Keys == {0}
            && c.demandIds == [0] && c.demands.Keys == {0} && c.bufferIds == [0, 1, 2, 3] && c.buffers.Keys == {0, 1, 2, 3}
            && c.tickLimit > 0 && 0.0 < c.low <= c.high
  {
  }

  /** The preconditions of the main theorems can be met, under either controller. */
  lemma WorkshopIsWellFormed(central: bool)
    ensures WellFormed(Workshop(central))
  {
    hide NoDup, SetOf, GoodBuffer, GoodMachine, GoodDemand, StartApart, Workshop;
    OneIsDistinct(0);
    FourAreDistinct();
    Identifiers(central);
    forall b | b in Workshop(central).buffers ensures GoodBuffer(Workshop(central), b) { Buffers(central, b); }
    Pieces(central);
  }

  lemma WorkshopCalendar(central: bool)
    ensures Proper(Workshop(central).outages) && Disjoint(Workshop(central).outages)
  {
  }

  lemma Pieces(central: bool)
    ensures var c := Workshop(central);
            && (forall m {:trigger GoodMachine(c, m)} :: m in c.machines ==> GoodMachine(c, m))
            && (forall d {:trigger GoodDemand(c, d)} :: d in c.demands ==> GoodDemand(c, d))
            && (forall v, w {:trigger StartApart(c, v, w)} :: v in c.start && w in c.start ==> StartApart(c, v, w))
            && c.walkable !! c.solids
  {
    hide NoDup, SetOf, GoodBuffer;
    assert GoodMachine(Workshop(central), 0) && GoodDemand(Workshop(central), 0) && StartApart(Workshop(central), 0, 0);
  }
}
