/** Whole episodes of the two controllers, from the scenario to the end of the run: the programs
    terminate, what they did is a run of enabled decisions, and every theorem about runs applies. */
module Episodes {
  import opened Collections
  import opened Availability
  import opened Factory
  import opened Safety
  import opened Operations
  import opened Stepping
  import opened Settling
  import opened Checks
  import opened Runs
  import opened Rewards
  import opened Negotiation
  import Central
  import TimeJump
  import Conservation
  import Engine

  // -- what an episode has done so far ---------------------------------------------------------

  /** A run leads from `s` to `t`, and it has earned that overdue time and reward. */
  ghost predicate Underway(c: Scenario, s: State, t: State, overdue: int, reward: real) {
    && WellFormed(c) && Stable(c, s) && Stable(c, t)
    && (exists run :: Leads(c, s, run, t)) && Engine.Earned(c, s, t, overdue, reward)
  }

  lemma Begins(c: Scenario, s: State)
    requires WellFormed(c) && Stable(c, s)
    ensures Underway(c, s, s, 0, 0.0)
  {
    hide Stable;
    assert Leads(c, s, [], s);
    Engine.EarnsNothing(c, s);
  }

  lemma {:induction false} LeadsOn(c: Scenario, s: State, first: seq<Decision>, u: State, second: seq<Decision>, t: State)
    requires WellFormed(c) && Stable(c, s) && Stable(c, u) && Leads(c, s, first, u) && Leads(c, u, second, t)
    ensures Leads(c, s, first + second, t)
    decreases |first|
  {
    hide Inv, Calm, DueReleased, Apply, Enabled;
    if first == [] {
      assert first + second == second;
    } else {
      ApplyStable(c, s, first[0]);
      assert (first + second)[0] == first[0] && (first + second)[1..] == first[1..] + second;
      LeadsOn(c, Apply(c, s, first[0]), first[1..], u, second, t);
    }
  }

  lemma EarnsOn(c: Scenario, s: State, u: State, t: State, o1: int, r1: real, o2: int, r2: real)
    requires WellFormed(c) && Engine.Earned(c, s, u, o1, r1) && Engine.Earned(c, u, t, o2, r2)
    ensures Engine.Earned(c, s, t, o1 + o2, r1 + r2)
  {
    hide Lateness, Reward, Bad;
    RewardAdds(c, o1, Bad(u) - Bad(s), o2, Bad(t) - Bad(u));
    assert Bad(u) - Bad(s) + (Bad(t) - Bad(u)) == Bad(t) - Bad(s);
  }

  lemma EarnedByNow(c: Scenario, s: State, u: State, t: State, overdue: int, reward: real)
    requires WellFormed(c) && Engine.Earned(c, s, u, overdue, reward) && t.ledger == u.ledger && t.tick == u.tick
    ensures Engine.Earned(c, s, t, overdue, reward)
  {
    hide Lateness, Reward, Bad;
    SameWorth(c, u, t);
  }

  /** A decision phase. */
  lemma AfterPhase(c: Scenario, s: State, u: State, run: seq<Decision>, t: State, overdue: int, reward: real)
    requires Underway(c, s, u, overdue, reward) && Decides(c, u, run, t) && t.ledger == u.ledger && t.tick == u.tick
    ensures Underway(c, s, t, overdue, reward)
  {
    hide Inv, Calm, DueReleased, Leads, Engine.Earned;
    var before :| Leads(c, s, before, u);
    LeadsOn(c, s, before, u, run, t);
    EarnedByNow(c, s, u, t, overdue, reward);
  }

  lemma UnderwayParts(c: Scenario, s: State, t: State, overdue: int, reward: real) returns (run: seq<Decision>)
    requires Underway(c, s, t, overdue, reward)
    ensures WellFormed(c) && Stable(c, s) && Stable(c, t) && Leads(c, s, run, t) && Engine.Earned(c, s, t, overdue, reward)
  {
    hide Stable, Leads, Engine.Earned;
    run :| Leads(c, s, run, t);
  }

  lemma UnderwayBy(c: Scenario, s: State, run: seq<Decision>, t: State, overdue: int, reward: real)
    requires WellFormed(c) && Stable(c, s) && Stable(c, t) && Leads(c, s, run, t) && Engine.Earned(c, s, t, overdue, reward)
    ensures Underway(c, s, t, overdue, reward)
  {
    hide Stable, Leads, Engine.Earned;
  }

  lemma IntervalLeads(c: Scenario, u: State, acts: Actions, k: int, before: map<AgvId, Cell>)
    requires WellFormed(c) && Stable(c, u) && Inv(c, u) && Allowed(c, u, acts, k) && Reachable(u, k)
    ensures Leads(c, u, [Proceed(acts, k), NoteArrivals(before)], Arrive(c, before, Interval(c, u, acts, k)))
  {
    hide Inv, Calm, DueReleased, Interval, Allowed, Reachable, Arrive;
    var d, e := Proceed(acts, k), NoteArrivals(before);
    ApplyStable(c, u, d);
    var v := Apply(c, u, d);
    ApplyStable(c, v, e);
    assert [d, e][1..] == [e] && [e][1..] == [];
    assert Leads(c, v, [e], Apply(c, v, e));
  }

  /** An interval with its arrivals. */
  lemma AfterInterval(c: Scenario, s: State, u: State, acts: Actions, k: int, before: map<AgvId, Cell>, t: State,
                      overdue: int, reward: real, more: int, paid: real)
    requires Underway(c, s, u, overdue, reward)
    requires WellFormed(c) && Stable(c, t) && Inv(c, u) && Allowed(c, u, acts, k) && Reachable(u, k)
    requires t == Arrive(c, before, Interval(c, u, acts, k)) && Engine.Earned(c, u, t, more, paid)
    ensures Underway(c, s, t, overdue + more, reward + paid)
  {
    hide *;
    var first := UnderwayParts(c, s, u, overdue, reward);
    IntervalLeads(c, u, acts, k, before);
    LeadsOn(c, s, first, u, [Proceed(acts, k), NoteArrivals(before)], t);
    EarnsOn(c, s, u, t, overdue, reward, more, paid);
    UnderwayBy(c, s, first + [Proceed(acts, k), NoteArrivals(before)], t, overdue + more, reward + paid);
  }

  /** The run is over, and both self-checks pass. */
  ghost predicate Ended(c: Scenario, s: State, t: State, overdue: int, reward: real) {
    Underway(c, s, t, overdue, reward) && Done(c, t) && Conservation.Check(c, t) && CheckReservations(c, t)
  }

  lemma EndsSafely(c: Scenario, s: State, t: State, overdue: int, reward: real)
    requires Underway(c, s, t, overdue, reward) && Done(c, t)
    ensures Ended(c, s, t, overdue, reward)
  {
    hide Inv, Leads, Engine.Earned, Conservation.Check, CheckReservations;
    Conservation.CheckNeverFails(c, t);
    ReservationsNeverFail(c, t);
  }

  // -- playing ---------------------------------------------------------------------------------

  /** Arbitrary directions for every vehicle. */
  method Movers(core: Engine.Simulator) returns (command: seq<(AgvId, Action)>)
    requires NoDup(core.c.agvIds) && SetOf(core.c.agvIds) == core.agvs.Keys
    ensures Engine.DistinctVehicles(command) && forall p :: p in command ==> p.0 in core.agvs
  {
    command := [];
    for i := 0 to |core.c.agvIds|
      invariant |command| == i && forall k :: 0 <= k < i ==> command[k].0 == core.c.agvIds[k]
    {
      var a :| a in {Wait, Up, Down, Left, Right};
      command := command + [(core.c.agvIds[i], a)];
    }
    forall i, k | 0 <= i < k < |command| ensures command[i].0 != command[k].0 { NoDupIndex(core.c.agvIds, i, k); }
    forall p | p in command ensures p.0 in core.agvs {
      var k :| 0 <= k < |command| && command[k] == p;
      assert core.c.agvIds[k] in SetOf(core.c.agvIds);
    }
  }

  lemma TimeLeft(c: Scenario, s: State)
    requires !Done(c, s)
    ensures s.tick < c.tickLimit
  {
  }

  lemma StillOn(c: Scenario, s: State, t: State)
    requires !Done(c, s) && t.ledger == s.ledger && t.tick == s.tick
    ensures !Done(c, t)
  {
  }

  lemma StableParts(c: Scenario, s: State)
    requires WellFormed(c) && Stable(c, s)
    ensures Inv(c, s) && NoDup(c.agvIds) && SetOf(c.agvIds) == s.agvs.Keys
  {
    Engine.Listed(c, s);
  }

  /** One interval of an episode with arbitrary movers, recorded or not. */
  method Proceeds(core: Engine.Simulator, ghost s: State, ghost overdue: int, ghost reward: real) returns (ghost more: int, ghost paid: real)
    requires WellFormed(core.c) && TimeJump.Decided(core.c, core.View()) && core.reevaluateTicks >= 1
    requires Underway(core.c, s, core.View(), overdue, reward)
    modifies core
    ensures Underway(core.c, s, core.View(), overdue + more, reward + paid)
    ensures WellFormed(core.c) && Stable(core.c, core.View()) && core.tick > old(core.tick) && core.reevaluateTicks == old(core.reevaluateTicks)
    ensures core.overdueTime == old(core.overdueTime) + more && core.totalReward == old(core.totalReward) + paid
  {
    hide *;
    ghost var u := core.View();
    core.Fields();
    Engine.DecidedParts(core.c, u);
    StableParts(core.c, u);
    var command := Movers(core);
    var recording: bool := *;
    ghost var cells := CellsOf(core.agvs);
    var elapsed, earned := core.AdvanceTime(command, recording);
    more, paid := core.overdueTime - old(core.overdueTime), earned;
    AfterInterval(core.c, s, u, Engine.ActionsOf(command), elapsed, cells, core.View(), overdue, reward, more, paid);
  }

  /** A whole episode of the reservation protocol, with arbitrary legal answers and movers. */
  method PlayBase(protocol: BaseProtocol)
    requires protocol.Valid() && protocol.run == []
    modifies protocol, protocol.core
    ensures Ended(protocol.core.c, old(protocol.core.View()), protocol.core.View(),
                  protocol.core.overdueTime - old(protocol.core.overdueTime), protocol.core.totalReward - old(protocol.core.totalReward))
  {
    hide *;
    var core := protocol.core;
    ghost var s, overdue, reward := core.View(), 0, 0.0;
    protocol.Opened();
    protocol.NothingYet();
    Begins(core.c, s);
    core.Fields();
    while !Done(core.c, core.View())
      invariant protocol.Valid() && protocol.run == [] && protocol.origin == core.View()
      invariant Underway(core.c, s, core.View(), overdue, reward)
      invariant core.overdueTime == old(core.overdueTime) + overdue && core.totalReward == old(core.totalReward) + reward
      decreases core.c.tickLimit - core.tick
    {
      ghost var u := core.View();
      core.Fields();
      TimeLeft(core.c, u);
      protocol.Decide();
      protocol.Opened();
      core.Fields();
      StillOn(core.c, u, core.View());
      AfterPhase(core.c, s, u, protocol.run, core.View(), overdue, reward);
      ghost var more, paid := Proceeds(core, s, overdue, reward);
      overdue, reward := overdue + more, reward + paid;
      protocol.Restart();
    }
    EndsSafely(core.c, s, core.View(), overdue, reward);
  }

  /** A whole episode of the centralized controller; only an illegal answer ends it early. */
  method PlayCentral(control: Central.CentralControl, policy: State -> Central.Task) returns (legal: bool)
    requires control.Valid() && control.run == [] && control.core.reevaluateTicks >= 1
    modifies control, control.core
    ensures Central.LegalPolicy(control.core.c, policy) ==> legal
    ensures legal ==> Ended(control.core.c, old(control.core.View()), control.core.View(),
                            control.core.overdueTime - old(control.core.overdueTime), control.core.totalReward - old(control.core.totalReward))
  {
    hide *;
    var core := control.core;
    ghost var s, overdue, reward := core.View(), 0, 0.0;
    control.Opened();
    control.NothingYet();
    Begins(core.c, s);
    core.Fields();
    while !Done(core.c, core.View())
      invariant control.Valid() && control.run == [] && control.origin == core.View() && core.reevaluateTicks >= 1
      invariant Underway(core.c, s, core.View(), overdue, reward)
      invariant core.overdueTime == old(core.overdueTime) + overdue && core.totalReward == old(core.totalReward) + reward
      decreases core.c.tickLimit - core.tick
    {
      ghost var u := core.View();
      core.Fields();
      TimeLeft(core.c, u);
      legal := control.Decide(policy);
      if !legal { return; }
      control.Opened();
      core.Fields();
      StillOn(core.c, u, core.View());
      AfterPhase(core.c, s, u, control.run, core.View(), overdue, reward);
      ghost var more, paid := Proceeds(core, s, overdue, reward);
      overdue, reward := overdue + more, reward + paid;
      control.Restart();
    }
    legal := true;
    EndsSafely(core.c, s, core.View(), overdue, reward);
  }

  // -- from the scenario -----------------------------------------------------------------------

  lemma InitialIsStable(c: Scenario)
    requires WellFormed(c) && Proper(c.outages) && Disjoint(c.outages)
    ensures Stable(c, Initial(c)) && Inv(c, Constructed(c)) && Initial(c) == SyncIdle(c, Constructed(c))
  {
    hide Inv;
  }

  /** The constructed simulator, configured. */
  method Prepare(c: Scenario, reevaluate: int) returns (core: Engine.Simulator)
    requires WellFormed(c) && Proper(c.outages) && Disjoint(c.outages)
    ensures fresh(core) && core.c == c && core.View() == Initial(c) && Stable(c, core.View()) && core.reevaluateTicks == reevaluate
    ensures core.overdueTime == 0 && core.totalReward == 0.0
  {
    hide *;
    InitialIsStable(c);
    core := new Engine.Simulator(c);
    core.Configure(reevaluate);
  }

  /** Every episode of the reservation protocol ends; its final state is the end of a run from the initial
      state, both checks pass there, and its totals are those of the closed form. */
  method BaseEpisode(c: Scenario, reevaluate: int, allowEmptyWait: bool, stops: (bool, bool)) returns (core: Engine.Simulator)
    requires WellFormed(c) && Proper(c.outages) && Disjoint(c.outages) && !c.central && reevaluate >= 1
    ensures core.c == c && Ended(c, Initial(c), core.View(), core.overdueTime, core.totalReward)
  {
    hide *;
    core := Prepare(c, reevaluate);
    var protocol := new BaseProtocol(core, allowEmptyWait, stops);
    PlayBase(protocol);
  }

  /** The same for the centralized controller under every policy that answers legally. */
  method CentralEpisode(c: Scenario, reevaluate: int, policy: State -> Central.Task) returns (core: Engine.Simulator, legal: bool)
    requires WellFormed(c) && Proper(c.outages) && Disjoint(c.outages) && c.central && reevaluate >= 1
    ensures Central.LegalPolicy(c, policy) ==> legal
    ensures legal ==> core.c == c && Ended(c, Initial(c), core.View(), core.overdueTime, core.totalReward)
  {
    hide *;
    core := Prepare(c, reevaluate);
    var control := new Central.CentralControl(core);
    legal := PlayCentral(control, policy);
  }
}
