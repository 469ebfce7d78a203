/** Zero-time decisions of the base protocol: stale reservations are cancelled, machines start jobs,
    vehicles apply for work and owners accept them, and vehicles on site start their services. The
    answers of the policies are arbitrary choices among the offered candidates. */
module Negotiation {
  import opened Collections
  import opened Factory
  import opened Custody
  import opened Safety
  import opened Operations
  import opened Settling
  import opened Reservations
  import opened Physics
  import opened Stepping
  import opened Checks
  import opened Runs
  import opened TimeJump
  import Engine
  import Phases
  import Durations
  import ServiceTick

  // -- decision sequences ----------------------------------------------------------------------

  /** `run` consists of decisions, each enabled when taken, and leads from `s` to `t`. */
  ghost predicate Decides(c: Scenario, s: State, run: seq<Decision>, t: State) {
    && WellFormed(c) && Stable(c, s) && Stable(c, t) && Leads(c, s, run, t)
    && forall i {:trigger run[i]} :: 0 <= i < |run| ==> !run[i].Proceed?
  }

  lemma {:induction false} LeadsMore(c: Scenario, s: State, run: seq<Decision>, u: State, d: Decision)
    requires WellFormed(c) && Stable(c, s) && Stable(c, u) && Leads(c, s, run, u) && Enabled(c, u, d)
    ensures Leads(c, s, run + [d], Apply(c, u, d))
    decreases |run|
  {
    hide Inv, Calm, DueReleased, Apply, Enabled;
    if run == [] {
      assert run + [d] == [d] && [d][1..] == [];
      ApplyStable(c, u, d);
    } else {
      ApplyStable(c, s, run[0]);
      assert (run + [d])[0] == run[0] && (run + [d])[1..] == run[1..] + [d];
      LeadsMore(c, Apply(c, s, run[0]), run[1..], u, d);
    }
  }

  lemma DecidesMore(c: Scenario, s: State, run: seq<Decision>, u: State, d: Decision)
    requires Decides(c, s, run, u) && WellFormed(c) && Stable(c, u) && Enabled(c, u, d) && !d.Proceed?
    ensures Decides(c, s, run + [d], Apply(c, u, d))
  {
    hide Inv, Calm, DueReleased, Apply, Enabled;
    LeadsMore(c, s, run, u, d);
    ApplyStable(c, u, d);
  }

  lemma DecidesNothing(c: Scenario, s: State)
    requires WellFormed(c) && Stable(c, s)
    ensures Decides(c, s, [], s)
  {
    hide Inv, Calm, DueReleased;
  }

  lemma DecidesParts(c: Scenario, s: State, run: seq<Decision>, t: State)
    requires Decides(c, s, run, t)
    ensures WellFormed(c) && Stable(c, t) && Inv(c, t) && Shaped(c, t)
    ensures NoDup(c.agvIds) && SetOf(c.agvIds) == t.agvs.Keys && t.idleSince.Keys <= t.agvs.Keys
    ensures SetOf(c.machineIds) == t.machines.Keys == c.machines.Keys && SetOf(c.bufferIds) == c.buffers.Keys
    ensures !c.central ==> t.assignments == map[]
  {
    hide Leads;
  }

  lemma SyncDecides(c: Scenario, s: State, run: seq<Decision>, u: State)
    requires Decides(c, s, run, u)
    ensures Decides(c, s, run + [Synchronize], SyncIdle(c, u))
  {
    hide Inv, Calm, DueReleased, Leads;
    DecidesMore(c, s, run, u, Synchronize);
  }

  lemma CancelDecides(c: Scenario, s: State, run: seq<Decision>, u: State, v: AgvId)
    requires Decides(c, s, run, u) && v in u.agvs
    ensures Decides(c, s, run + [CancelStale(v)], Cancel(c, u, v))
  {
    hide Inv, Calm, DueReleased, Leads, Cancel;
    DecidesMore(c, s, run, u, CancelStale(v));
  }

  lemma StartDecides(c: Scenario, s: State, run: seq<Decision>, u: State, m: MachineId, j: JobId, mode: ModeId)
    requires Decides(c, s, run, u) && WellFormed(c) && Shaped(c, u) && Startable(c, u, m, j, mode) && u.assignments == map[]
    ensures Decides(c, s, run + [StartJob(m, j, mode)], Start(c, u, m, j, mode))
  {
    hide Inv, Calm, DueReleased, Leads, Start, Startable;
    DecidesMore(c, s, run, u, StartJob(m, j, mode));
  }

  lemma AcceptDecides(c: Scenario, s: State, run: seq<Decision>, u: State, v: AgvId, b: BufferId)
    requires Decides(c, s, run, u) && WellFormed(c) && Inv(c, u) && Candidate(c, u, v, b) && !c.central
    ensures Decides(c, s, run + [AcceptRequest(v, b)], Accept(c, u, v, b))
  {
    hide Inv, Calm, DueReleased, Leads, Accept, Candidate;
    DecidesMore(c, s, run, u, AcceptRequest(v, b));
  }

  lemma ServeDecides(c: Scenario, s: State, run: seq<Decision>, u: State, v: AgvId, kind: Kind, j: JobId, p: Place)
    requires Decides(c, s, run, u) && Servable(c, u, v, kind, j, p) && v in u.agvs
    ensures Decides(c, s, run + [BeginService(v, kind, j, p)], Serve(u, v, kind, j, p))
  {
    hide Inv, Calm, DueReleased, Leads, Serve, Servable;
    DecidesMore(c, s, run, u, BeginService(v, kind, j, p));
  }

  // -- facts about single vehicles and machines ------------------------------------------------

  lemma TargetKnown(c: Scenario, s: State, v: AgvId)
    requires WellFormed(c) && Inv(c, s) && v in s.agvs
    ensures s.agvs[v].target.Some? ==> s.agvs[v].target.value in c.buffers
  {
    assert VehicleOk(c, s.jobs, s.agvs[v]);
  }

  /** The vehicle does not head for an unavailable owner. */
  predicate HeadsWell(c: Scenario, s: State, v: AgvId)
    requires WellFormed(c) && Shaped(c, s)
  {
    v in s.agvs && (s.agvs[v].target.Some? ==> s.agvs[v].target.value in c.buffers && Eligible(c, s, s.agvs[v].target.value))
  }

  ghost predicate HeadWell(c: Scenario, s: State, n: nat)
    requires WellFormed(c) && Shaped(c, s)
  {
    forall i {:trigger c.agvIds[i]} :: 0 <= i < n <= |c.agvIds| ==> HeadsWell(c, s, c.agvIds[i])
  }

  lemma VehicleDistinct(c: Scenario, i: nat)
    requires NoDup(c.agvIds) && i < |c.agvIds|
    ensures c.agvIds[i] !in c.agvIds[..i]
  {
    forall k | 0 <= k < i ensures c.agvIds[k] != c.agvIds[i] { NoDupIndex(c.agvIds, k, i); }
  }

  lemma NoneStale(c: Scenario, s: State)
    requires WellFormed(c) && Inv(c, s)
    ensures Phases.GaveUp(c, s, s, Phases.StaleOf(c, s, []))
  {
    ServiceTick.TasksKnown(c, s);
    hide Phases.GaveUp;
    Phases.NobodyGaveUp(c, s);
    assert Phases.StaleOf(c, s, []) == {};
  }

  lemma StaleNow(c: Scenario, s: State, u: State, done: seq<AgvId>, v: AgvId)
    requires WellFormed(c) && Stable(c, s) && Shaped(c, s) && Shaped(c, u) && Phases.GaveUp(c, s, u, Phases.StaleOf(c, s, done))
    requires v in u.agvs && v !in done && (u.agvs[v].target.Some? ==> u.agvs[v].target.value in c.buffers)
    ensures v in s.agvs && u.agvs[v] == s.agvs[v]
    ensures u.agvs[v].target.Some? && !Eligible(c, u, u.agvs[v].target.value) <==> Phases.Stale(c, s, v)
  {
    hide Phases.Stale, Inv, Phases.ClocksAfter, Phases.Told, ServiceTick.Dropped, Eligible, WellFormed, Shaped;
    Phases.StaleTest(c, s, u, done, v);
  }

  lemma AllGaveUp(c: Scenario, s: State, t: State)
    requires Phases.GaveUp(c, s, t, Phases.StaleOf(c, s, c.agvIds)) && SetOf(c.agvIds) == t.agvs.Keys
    ensures Phases.StaleCancelled(c, s, t)
  {
    assert t.agvs.Keys == s.agvs.Keys;
    hide Phases.GaveUp, Phases.StaleOf;
    Phases.AllStale(c, s, t);
  }

  lemma CancelHeads(c: Scenario, s: State, v: AgvId, n: nat)
    requires WellFormed(c) && Shaped(c, s) && n < |c.agvIds| && v == c.agvIds[n] && v in s.agvs && HeadWell(c, s, n)
    requires Shaped(c, Cancel(c, s, v))
    ensures HeadWell(c, Cancel(c, s, v), n + 1)
  {
    var t := Cancel(c, s, v);
    CancelTouched(c, s, v);
    TouchedShape(c, s, t, v);
    forall i | 0 <= i < n + 1 ensures HeadsWell(c, t, c.agvIds[i]) {
      if i < n { assert HeadsWell(c, s, c.agvIds[i]); }
    }
  }

  /** Everything the machine could start now. */
  function Choices(c: Scenario, s: State, m: MachineId): set<(JobId, ModeId)>
    requires WellFormed(c) && Shaped(c, s) && m in c.machines
  {
    set j, mode | j in s.jobs && mode in c.machines[m].modes && Startable(c, s, m, j, mode) :: (j, mode)
  }

  /** The first `n` machines cannot start anything. */
  ghost predicate Busy(c: Scenario, s: State, n: nat)
    requires WellFormed(c) && Shaped(c, s)
  {
    forall i {:trigger c.machineIds[i]} :: 0 <= i < n <= |c.machineIds| && c.machineIds[i] in c.machines ==> Choices(c, s, c.machineIds[i]) == {}
  }

  lemma StartBusy(c: Scenario, s: State, m: MachineId, j: JobId, mode: ModeId, n: nat)
    requires WellFormed(c) && Shaped(c, s) && Startable(c, s, m, j, mode) && Shaped(c, Start(c, s, m, j, mode))
    requires n < |c.machineIds| && m == c.machineIds[n] && Busy(c, s, n)
    ensures Busy(c, Start(c, s, m, j, mode), n + 1)
  {
    var t := Start(c, s, m, j, mode);
    forall i | 0 <= i < n + 1 && c.machineIds[i] in c.machines ensures Choices(c, t, c.machineIds[i]) == {} {
      var x := c.machineIds[i];
      if i < n {
        NoDupIndex(c.machineIds, i, n);
        assert Choices(c, s, x) == {};
        forall k, o | k in t.jobs && o in c.machines[x].modes ensures !Startable(c, t, x, k, o) {
          assert !Startable(c, s, x, k, o) by { assert (k, o) !in Choices(c, s, x); }
        }
      }
    }
  }

  /** A vehicle's opportunities: the owners it could ask, with their quotas. */
  function Owners(c: Scenario, s: State, v: AgvId, ids: seq<BufferId>): seq<(BufferId, int)>
    requires WellFormed(c) && Inv(c, s)
  {
    if ids == [] then []
    else (if ids[0] in c.buffers && Candidate(c, s, v, ids[0]) then [(ids[0], Quota(c, s, ids[0]))] else []) + Owners(c, s, v, ids[1..])
  }

  class BaseProtocol {
    const core: Engine.Simulator
    var rejected: map<AgvId, set<BufferId>>
    const allowEmptyWait: bool
    const stopPre: bool
    const stopPost: bool
    /** History: where this decision phase began and what was decided since. */
    ghost var origin: State
    ghost var run: seq<Decision>

    ghost predicate Valid()
      reads this, core
    {
      !core.c.central && core.reevaluateTicks >= 1 && Decides(core.c, origin, run, core.View())
    }

    constructor (simulator: Engine.Simulator, emptyWait: bool, stops: (bool, bool))
      requires WellFormed(simulator.c) && Stable(simulator.c, simulator.View()) && !simulator.c.central && simulator.reevaluateTicks >= 1
      ensures Valid() && core == simulator && origin == core.View() && run == [] && rejected == map[]
      ensures allowEmptyWait == emptyWait && stopPre == stops.0 && stopPost == stops.1
    {
      core, rejected, allowEmptyWait, stopPre, stopPost := simulator, map[], emptyWait, stops.0, stops.1;
      origin, run := simulator.View(), [];
      DecidesNothing(simulator.c, simulator.View());
    }

    method Synchronize()
      requires Valid()
      modifies core`idleSince, `run
      ensures Valid() && core.View() == SyncIdle(core.c, old(core.View()))
    {
      hide *;
      ghost var u := core.View();
      Opened();
      core.SyncIdleClocks();
      SyncDecides(core.c, origin, run, u);
      run := run + [Decision.Synchronize];
      Closed();
    }

    /** Everything `Valid` says. */
    lemma Opened()
      requires Valid()
      ensures !core.c.central && core.reevaluateTicks >= 1 && Decides(core.c, origin, run, core.View())
      ensures var c, t := core.c, core.View();
              && WellFormed(c) && Stable(c, t) && Inv(c, t) && Shaped(c, t) && NoDup(c.agvIds)
              && SetOf(c.agvIds) == core.agvs.Keys && core.idleSince.Keys <= core.agvs.Keys && core.assignments == map[]
              && SetOf(c.machineIds) == core.machines.Keys == c.machines.Keys && SetOf(c.bufferIds) == c.buffers.Keys
              && t.agvs == core.agvs && t.jobs == core.jobs && t.machines == core.machines && t.storage == core.storage
              && t.assignments == core.assignments && t.tick == core.tick
    {
      DecidesParts(core.c, origin, run, core.View());
    }

    /** A phase that has not begun is where it started. */
    lemma NothingYet()
      requires Valid() && run == []
      ensures origin == core.View()
    {
      assert Leads(core.c, origin, [], core.View());
    }

    lemma Closed()
      requires !core.c.central && core.reevaluateTicks >= 1 && Decides(core.c, origin, run, core.View())
      ensures Valid()
    {
    }

    method CancelOne(v: AgvId)
      requires Valid() && v in core.agvs
      modifies core`agvs, core`assignments, core`idleSince, core`log, `run
      ensures Valid() && core.View() == Cancel(core.c, old(core.View()), v)
    {
      hide *;
      ghost var u := core.View();
      Opened();
      core.Cancel(v);
      CancelDecides(core.c, origin, run, u, v);
      run := run + [CancelStale(v)];
      Closed();
    }

    /** Exactly the reservations at owners that take nobody now are cancelled; afterwards there are none. */
    method CancelStaleReservations()
      requires Valid()
      modifies core`agvs, core`assignments, core`idleSince, core`log, `run
      ensures Valid() && WellFormed(core.c) && Shaped(core.c, core.View()) && HeadWell(core.c, core.View(), |core.c.agvIds|)
      ensures Phases.StaleCancelled(core.c, old(core.View()), core.View())
    {
      hide *;
      Opened();
      var c := core.c;
      ghost var s := core.View();
      NoneHead(c, s);
      NoneStale(c, s);
      assert c.agvIds[..0] == [];
      for i := 0 to |c.agvIds|
        invariant Valid() && WellFormed(c) && Shaped(c, core.View()) && HeadWell(c, core.View(), i)
        invariant Phases.GaveUp(c, s, core.View(), Phases.StaleOf(c, s, c.agvIds[..i]))
      {
        var v := c.agvIds[i];
        ghost var u := core.View();
        Opened();
        VehicleDistinct(c, i);
        assert v in SetOf(c.agvIds) && c.agvIds[..i + 1] == c.agvIds[..i] + [v];
        TargetKnown(c, u, v);
        StaleNow(c, s, u, c.agvIds[..i], v);
        if core.agvs[v].target.Some? && !Eligible(c, core.View(), core.agvs[v].target.value) {
          CancelOne(v);
          Opened();
          CancelHeads(c, u, v, i);
        } else {
          KeepHeads(c, u, i);
        }
        Phases.StaleStep(c, s, u, core.View(), c.agvIds[..i], v);
      }
      Opened();
      assert c.agvIds[..|c.agvIds|] == c.agvIds;
      AllGaveUp(c, s, core.View());
    }

    method StartOne(m: MachineId, j: JobId, mode: ModeId)
      requires Valid() && WellFormed(core.c) && Shaped(core.c, core.View()) && Startable(core.c, core.View(), m, j, mode)
      modifies core`machines, core`storage, core`jobs, core`agvs, core`log, `run
      ensures Valid() && core.View() == Start(core.c, old(core.View()), m, j, mode)
      ensures Durations.Begun(core.c, old(core.View()), core.View(), m, j, mode)
    {
      hide *;
      ghost var u := core.View();
      Opened();
      core.Start(m, j, mode);
      StartDecides(core.c, origin, run, u, m, j, mode);
      run := run + [StartJob(m, j, mode)];
      Closed();
    }

    /** Every machine with a choice starts one of them; afterwards no machine can start anything. */
    method StartMachines()
      requires Valid()
      modifies core`machines, core`storage, core`jobs, core`agvs, core`log, `run
      ensures Valid() && WellFormed(core.c) && Shaped(core.c, core.View()) && Busy(core.c, core.View(), |core.c.machineIds|)
      ensures Phases.Manned(core.c, old(core.View()), core.View()) && Phases.OnlyShop(old(core.View()), core.View())
    {
      hide *;
      Opened();
      var c := core.c;
      ghost var s := core.View();
      NoneBusy(c, s);
      ShopItself(s);
      Phases.NobodyManned(c, s);
      assert c.machineIds[..0] == [];
      assert SetOf(c.machineIds[..0]) == {};
      for i := 0 to |c.machineIds|
        invariant Valid() && WellFormed(c) && Shaped(c, core.View()) && Busy(c, core.View(), i)
        invariant Phases.MannedBy(c, s, core.View(), SetOf(c.machineIds[..i])) && Phases.OnlyShop(s, core.View())
      {
        var m := c.machineIds[i];
        ghost var u, done := core.View(), SetOf(c.machineIds[..i]);
        Opened();
        assert m in SetOf(c.machineIds);
        MachineDistinct(c, i);
        var choices := Choices(c, core.View(), m);
        if choices != {} {
          var choice :| choice in choices;
          ChoiceStarts(c, u, m, choice);
          StartOne(m, choice.0, choice.1);
          Opened();
          StartBusy(c, u, m, choice.0, choice.1, i);
          ManChoice(c, s, u, core.View(), done, m, choice.0, choice.1);
          ShopOnce(c, s, u, core.View(), m, choice.0, choice.1);
        } else {
          KeepBusy(c, u, i);
          ManNobody(c, s, u, done, m);
        }
      }
      AllManned(c, s, core.View());
    }

    // -- who asks for work ---------------------------------------------------------------------

    /** One vehicle's part of the search; an expired wait is forgotten, an asking vehicle noted. */
    method Consider(v: AgvId) returns (asks: bool)
      requires Valid() && WellFormed(core.c) && Inv(core.c, core.View()) && v in core.agvs
      modifies core`wake, core`emptyWaitDue
      ensures Valid() && core.View() == old(core.View())
      ensures asks == Wakes(core.c, core.View(), old(core.wake), old(core.emptyWaitDue), core.reevaluateTicks, v)
      ensures core.wake == if asks then old(core.wake)[v := (core.tick, Owners(core.c, core.View(), v, core.c.bufferIds))] else old(core.wake)
      ensures core.emptyWaitDue == old(core.emptyWaitDue) || core.emptyWaitDue == old(core.emptyWaitDue) - {v}
    {
      hide *;
      Opened();
      Waked();
      WakesIs(core.c, core.View(), core.wake, core.emptyWaitDue, core.reevaluateTicks, v);
      if (v in core.emptyWaitDue && core.emptyWaitDue[v] > core.tick) || core.agvs[v].target.Some? || core.agvs[v].service.Some? {
        return false;
      }
      var owners := Owners(core.c, core.View(), v, core.c.bufferIds);
      var waited := v in core.emptyWaitDue;
      core.emptyWaitDue := core.emptyWaitDue - {v};
      asks := owners != []
              && (waited || v !in core.wake || core.wake[v].1 != owners || core.tick - core.wake[v].0 >= core.reevaluateTicks);
      if asks { core.wake := core.wake[v := (core.tick, owners)]; }
      Waked();
    }

    lemma Waked()
      ensures core.View() == State(core.tick, core.jobs, core.queue, core.storage, core.machines, core.agvs, core.ledger,
                                   core.idleSince, core.assignments, core.log)
      ensures Valid() <==> !core.c.central && core.reevaluateTicks >= 1 && Decides(core.c, origin, run, core.View())
    {
    }

    /** The part of `decisions` that finds the vehicles asking for work. */
    method CollectActive() returns (active: seq<AgvId>)
      requires Valid()
      modifies core`wake, core`emptyWaitDue
      ensures Valid() && core.View() == old(core.View()) && WellFormed(core.c) && Inv(core.c, core.View())
      ensures NoDup(active)
      ensures forall v :: v in active <==>
                v in core.agvs && Wakes(core.c, core.View(), old(core.wake), old(core.emptyWaitDue), core.reevaluateTicks, v)
    {
      hide *;
      Opened();
      var c := core.c;
      ghost var s, wake, due := core.View(), core.wake, core.emptyWaitDue;
      active := [];
      NothingFound(c, s, wake, due, core.reevaluateTicks);
      for i := 0 to |c.agvIds|
        invariant core.View() == s && Valid() && WellFormed(c) && Inv(c, s)
        invariant Unseen(c, core.wake, wake, i) && Unseen(c, core.emptyWaitDue, due, i)
        invariant Found(c, s, wake, due, core.reevaluateTicks, active, i)
      {
        var v := c.agvIds[i];
        Opened();
        assert v in SetOf(c.agvIds);
        ghost var wake1, due1 := core.wake, core.emptyWaitDue;
        var asks := Consider(v);
        FindOne(c, s, wake, due, core.reevaluateTicks, active, i, asks, wake1, due1, core.wake, core.emptyWaitDue);
        if asks { active := active + [v]; }
      }
      Opened();
      FoundAll(c, s, wake, due, core.reevaluateTicks, active);
    }

    // -- owners answer -------------------------------------------------------------------------

    /** The invalid-transition error of `accept` never occurs for a candidate. */
    method AcceptOne(v: AgvId, b: BufferId)
      requires Valid() && WellFormed(core.c) && Inv(core.c, core.View()) && Candidate(core.c, core.View(), v, b)
      modifies core`agvs, core`idleSince, core`log, `run
      ensures Valid() && core.View() == Accept(core.c, old(core.View()), v, b)
    {
      hide *;
      ghost var u := core.View();
      Opened();
      CandidateParts(core.c, u, v, b);
      var ok := core.Accept(v, b);
      assert ok;
      AcceptDecides(core.c, origin, run, u, v, b);
      run := run + [AcceptRequest(v, b)];
      Closed();
    }

    /** An Output takes every applicant, an Input takes all when it can. */
    method AcceptAll(owner: BufferId, waiting: seq<AgvId>)
      requires Valid() && WellFormed(core.c) && Inv(core.c, core.View()) && NoDup(waiting)
      requires Waits(core.c, core.View(), waiting, owner) && TakesAll(core.c, core.View(), owner, |waiting|)
      modifies core`agvs, core`idleSince, core`log, `run
      ensures Valid() && WellFormed(core.c) && Inv(core.c, core.View())
      ensures OnlyVehicles(old(core.View()), core.View(), SetOf(waiting)) && Taken(core.agvs, waiting, [], owner)
    {
      hide *;
      Opened();
      var c := core.c;
      ghost var s := core.View();
      AcceptStarts(c, s, waiting, owner);
      assert waiting[0..] == waiting;
      for i := 0 to |waiting|
        invariant Valid() && WellFormed(c) && Inv(c, core.View()) && core.View().agvs == core.agvs
        invariant Waits(c, core.View(), waiting[i..], owner) && TakesAll(c, core.View(), owner, |waiting| - i)
        invariant OnlyVehicles(s, core.View(), SetOf(waiting)) && Taken(core.agvs, waiting, waiting[i..], owner)
      {
        ghost var u := core.View();
        assert waiting[i..][0] == waiting[i] && waiting[i..][1..] == waiting[i + 1..];
        NextWaits(c, u, waiting, i, owner);
        RestDistinct(waiting, i);
        AcceptOne(waiting[i], owner);
        Opened();
        OneTaken(c, s, u, core.View(), waiting, waiting[i..], waiting[i], waiting[i + 1..], owner, |waiting| - i);
      }
      assert waiting[|waiting|..] == [];
    }

    /** The owner's policy picks applicants while there is quota, unless it may stop and does. */
    method AcceptSome(owner: BufferId, waiting: seq<AgvId>, mayStop: bool) returns (left: seq<AgvId>)
      requires Valid() && WellFormed(core.c) && Inv(core.c, core.View()) && NoDup(waiting)
      requires Waits(core.c, core.View(), waiting, owner)
      modifies core`agvs, core`idleSince, core`log, `run
      ensures Valid() && WellFormed(core.c) && Inv(core.c, core.View()) && owner in core.c.buffers
      ensures OnlyVehicles(old(core.View()), core.View(), SetOf(waiting)) && Taken(core.agvs, waiting, left, owner)
      ensures forall v :: v in left ==> v in waiting
      ensures left != [] && !mayStop ==> Quota(core.c, core.View(), owner) <= 0
    {
      hide *;
      Opened();
      var c := core.c;
      ghost var s := core.View();
      left := waiting;
      AcceptStarts(c, s, waiting, owner);
      while left != [] && Quota(c, core.View(), owner) > 0
        invariant Valid() && WellFormed(c) && Inv(c, core.View()) && core.View().agvs == core.agvs && owner in c.buffers
        invariant NoDup(left) && Waits(c, core.View(), left, owner) && forall w :: w in left ==> w in waiting
        invariant OnlyVehicles(s, core.View(), SetOf(waiting)) && Taken(core.agvs, waiting, left, owner)
        decreases |left|
      {
        if mayStop {
          var stops: bool := *;
          if stops { return; }
        }
        ghost var u, before := core.View(), left;
        assert left[0] in left;
        var selected :| selected in left;
        SomeWaits(c, u, left, selected, owner);
        AcceptOne(selected, owner);
        Opened();
        WithoutMeaning(left, selected);
        OneTaken(c, s, u, core.View(), waiting, left, selected, Without(left, selected), owner, 0);
        left := Without(left, selected);
      }
    }

    method RejectAll(left: seq<AgvId>, owner: BufferId)
      requires forall v :: v in left ==> v in rejected
      modifies `rejected
      ensures Added(old(rejected), rejected, left, owner)
    {
      AddNothing(rejected, owner);
      assert left[..0] == [];
      for i := 0 to |left|
        invariant Added(old(rejected), rejected, left[..i], owner)
      {
        assert left[..i + 1] == left[..i] + [left[i]];
        rejected := rejected[left[i] := rejected[left[i]] + {owner}];
      }
      assert left[..|left|] == left;
    }

    /** One owner answers its applicants: each is accepted or gains a rejection. */
    method Grant(owner: BufferId, waiting: seq<AgvId>)
      requires Valid() && WellFormed(core.c) && Inv(core.c, core.View()) && NoDup(waiting)
      requires Waits(core.c, core.View(), waiting, owner) && forall v :: v in waiting ==> v in rejected
      requires Justified(core.c, core.View(), rejected, stopPre, stopPost)
      modifies core`agvs, core`idleSince, core`log, `run, `rejected
      ensures Valid() && WellFormed(core.c) && Inv(core.c, core.View())
      ensures OnlyVehicles(old(core.View()), core.View(), SetOf(waiting))
      ensures Answered(core.agvs, old(rejected), rejected, waiting, owner) && Justified(core.c, core.View(), rejected, stopPre, stopPost)
    {
      hide *;
      Opened();
      ghost var s := core.View();
      WaitsOwner(core.c, core.View(), waiting, owner);
      var left: seq<AgvId> := [];
      if TakesAll(core.c, core.View(), owner, |waiting|) {
        AcceptAll(owner, waiting);
      } else {
        var mayStop := match core.c.buffers[owner].role
                       case Pre(m) => stopPre
                       case Post(m) => stopPost
                       case _ => false;
        left := AcceptSome(owner, waiting, mayStop);
        MayStopMeans(core.c, owner, mayStop, stopPre, stopPost);
      }
      Opened();
      JustifiedOn(core.c, s, core.View(), SetOf(waiting), rejected, stopPre, stopPost);
      RejectAll(left, owner);
      JustifiedMore(core.c, core.View(), old(rejected), rejected, left, owner, stopPre, stopPost);
      Closed();
      AllAnswered(core.agvs, old(rejected), rejected, waiting, left, owner);
    }

    // -- a round -------------------------------------------------------------------------------

    /** Each asking vehicle applies to one candidate that has not rejected it, or chooses to wait. */
    method CollectApplications(active: seq<AgvId>) returns (choice: map<AgvId, BufferId>, waited: set<AgvId>)
      requires Valid() && NoDup(active) && forall v :: v in active ==> v in core.agvs && v in rejected
      modifies core`emptyWaitDue
      ensures Valid() && core.View() == old(core.View()) && WellFormed(core.c) && Inv(core.c, core.View())
      ensures Applications(core.c, core.View(), rejected, active, choice, waited)
      ensures Waiters(old(core.emptyWaitDue), core.emptyWaitDue, waited, core.tick) && (waited != {} ==> allowEmptyWait)
    {
      hide *;
      Opened();
      Waked();
      var c := core.c;
      ghost var s, due := core.View(), core.emptyWaitDue;
      choice, waited := map[], {};
      NoApplications(c, s, rejected, due, core.tick);
      assert active[..0] == [];
      for i := 0 to |active|
        invariant core.View() == s && Valid() && WellFormed(c) && Inv(c, s)
        invariant Applications(c, s, rejected, active[..i], choice, waited)
        invariant Waiters(due, core.emptyWaitDue, waited, core.tick) && (waited != {} ==> allowEmptyWait)
      {
        var v := active[i];
        assert active[..i + 1] == active[..i] + [v];
        BeforeDistinct(active, i);
        var owners := AskSet(c, core.View(), v, rejected[v]);
        NextApplication(c, s, rejected, active[..i], choice, waited, v);
        if owners != {} {
          var waits := false;
          if allowEmptyWait && core.agvs[v].job.None? { waits := *; }
          if waits {
            OneWaits(due, core.emptyWaitDue, waited, core.tick, v);
            core.emptyWaitDue := core.emptyWaitDue[v := core.tick + 1];
            waited := waited + {v};
          } else {
            var owner :| owner in owners;
            choice := choice[v := owner];
          }
        }
        Waked();
      }
      assert active[..|active|] == active;
    }

    /** Owners answer their applicants, one owner after the other. */
    method AnswerAll(active: seq<AgvId>, choice: map<AgvId, BufferId>)
      requires Valid() && WellFormed(core.c) && Inv(core.c, core.View()) && NoDup(active)
      requires Hopeful(core.c, core.View(), rejected, active, choice) && Justified(core.c, core.View(), rejected, stopPre, stopPost)
      modifies core`agvs, core`idleSince, core`log, `run, `rejected
      ensures Valid() && WellFormed(core.c) && Inv(core.c, core.View())
      ensures OnlyVehicles(old(core.View()), core.View(), choice.Keys) && Resolved(core.agvs, old(rejected), rejected, choice, core.c.bufferIds)
      ensures Justified(core.c, core.View(), rejected, stopPre, stopPost)
    {
      hide *;
      Opened();
      var c := core.c;
      ghost var s, refused := core.View(), rejected;
      NoneAnswered(c, s, rejected, active, choice);
      assert c.bufferIds[..0] == [];
      for i := 0 to |c.bufferIds|
        invariant Valid() && WellFormed(c) && Inv(c, core.View()) && core.View().agvs == core.agvs
        invariant StillHopeful(c, core.View(), rejected, active, choice, c.bufferIds[..i])
        invariant OnlyVehicles(s, core.View(), choice.Keys) && Resolved(core.agvs, refused, rejected, choice, c.bufferIds[..i])
        invariant Justified(c, core.View(), rejected, stopPre, stopPost)
      {
        var owner := c.bufferIds[i];
        assert c.bufferIds[..i + 1] == c.bufferIds[..i] + [owner];
        OwnerDistinct(c, i);
        var waiting := Applicants(active, choice, owner);
        ghost var u, before := core.View(), rejected;
        ApplicantsWait(c, u, rejected, active, choice, c.bufferIds[..i], owner);
        Grant(owner, waiting);
        Opened();
        OwnerAnswered(c, s, u, core.View(), refused, before, rejected, active, choice, c.bufferIds[..i], owner);
      }
      assert c.bufferIds[..|c.bufferIds|] == c.bufferIds;
    }

    /** One negotiation round: applications are collected, owners answer, satisfied vehicles leave. */
    method Round(active: seq<AgvId>) returns (next: seq<AgvId>, applied: bool)
      requires Valid() && NoDup(active) && forall v :: v in active ==> v in core.agvs && v in rejected
      requires WellFormed(core.c) && Justified(core.c, core.View(), rejected, stopPre, stopPost)
      modifies core`agvs, core`idleSince, core`log, core`emptyWaitDue, `run, `rejected
      ensures Valid() && WellFormed(core.c) && Inv(core.c, core.View()) && Justified(core.c, core.View(), rejected, stopPre, stopPost)
      ensures OnlyVehicles(old(core.View()), core.View(), SetOf(active)) && Grown(old(rejected), rejected)
      ensures NoDup(next) && forall v :: v in next ==> v in active
      ensures Departed(core.agvs, core.emptyWaitDue, active, next, core.tick) && StillWaiting(old(core.emptyWaitDue), core.emptyWaitDue, core.tick)
      ensures applied ==> Weight(next, rejected, core.c.buffers.Keys) < Weight(active, old(rejected), core.c.buffers.Keys)
      ensures !applied ==> Exhausted(core.c, core.View(), rejected, core.emptyWaitDue, active, core.tick)
                           && next == active && rejected == old(rejected)
    {
      hide *;
      Opened();
      var c := core.c;
      ghost var s, refused, due := core.View(), rejected, core.emptyWaitDue;
      var choice, waited := CollectApplications(active);
      WaitersStay(due, core.emptyWaitDue, waited, core.tick);
      if choice == map[] {
        NobodyApplied(c, s, rejected, due, core.emptyWaitDue, active, waited, core.tick);
        Opened();
        return active, false;
      }
      ApplicationsHope(c, s, rejected, active, choice, waited);
      Opened();
      AnswerAll(active, choice);
      Opened();
      next := Remaining(active, core.agvs, waited);
      applied := true;
      OnlyApplicants(c, s, core.View(), refused, rejected, active, choice, waited);
      RoundWeighs(c, s, core.agvs, refused, rejected, active, choice, waited);
      RemainingIs(active, core.agvs, core.emptyWaitDue, waited, due, core.tick);
    }

    /** Negotiation ends, and then every vehicle that asked is under way, waits for a tick, or has been
        rejected by every candidate that is left; only vehicles that asked get targets, and an owner that may
        not stop rejects nobody while it has room. */
    method Negotiate()
      requires Valid()
      modifies core`agvs, core`idleSince, core`log, core`wake, core`emptyWaitDue, `run, `rejected
      ensures Valid() && WellFormed(core.c) && Inv(core.c, core.View()) && Inv(core.c, old(core.View()))
      ensures OnlyVehicles(old(core.View()), core.View(), Askers(core.c, old(core.View()), old(core.wake), old(core.emptyWaitDue), core.reevaluateTicks))
      ensures Justified(core.c, core.View(), rejected, stopPre, stopPost)
      ensures forall v ::
                v in core.agvs && Wakes(core.c, old(core.View()), old(core.wake), old(core.emptyWaitDue), core.reevaluateTicks, v) ==>
                Satisfied(core.c, core.View(), rejected, core.emptyWaitDue, core.tick, v)
    {
      hide *;
      Opened();
      var c := core.c;
      ghost var s := core.View();
      var active := CollectActive();
      ghost var asking := active;
      Opened();
      rejected := map v | v in active :: {};
      Closed();
      NegotiationStarts(c, s, core.emptyWaitDue, asking, core.tick);
      AskersListed(c, s, old(core.wake), old(core.emptyWaitDue), core.reevaluateTicks, asking);
      NobodyRejected(c, s, rejected, stopPre, stopPost);
      var going := true;
      while active != [] && going
        invariant Valid() && WellFormed(c) && Inv(c, s) && Inv(c, core.View()) && core.View().agvs == core.agvs && NoDup(active)
        invariant OnlyVehicles(s, core.View(), SetOf(asking)) && rejected.Keys == SetOf(asking) && core.agvs.Keys == s.agvs.Keys
        invariant forall v :: v in active ==> v in asking
        invariant forall v :: v in active ==> v in core.agvs && v in rejected
        invariant Departed(core.agvs, core.emptyWaitDue, asking, active, core.tick)
        invariant Justified(c, core.View(), rejected, stopPre, stopPost)
        invariant !going ==> Exhausted(c, core.View(), rejected, core.emptyWaitDue, active, core.tick)
        decreases Weight(active, rejected, c.buffers.Keys), going
      {
        ghost var u, before, due, refused := core.View(), active, core.emptyWaitDue, rejected;
        active, going := Round(active);
        Opened();
        SameKeys(refused, rejected);
        RoundLeft(s, u, core.View(), due, core.emptyWaitDue, asking, before, active, core.tick);
      }
      AllSatisfied(c, core.View(), rejected, core.emptyWaitDue, asking, active, going, core.tick);
    }

    // -- on-site services ----------------------------------------------------------------------

    method ServeOne(v: AgvId, kind: Kind, j: JobId, p: Place)
      requires Valid() && Servable(core.c, core.View(), v, kind, j, p) && v in core.agvs
      modifies core`agvs, core`log, `run
      ensures Valid() && core.View() == Serve(old(core.View()), v, kind, j, p)
    {
      hide *;
      ghost var u := core.View();
      Opened();
      core.StartService(v, kind, j, p);
      ServeDecides(core.c, origin, run, u, v, kind, j, p);
      run := run + [BeginService(v, kind, j, p)];
      Closed();
    }

    /** The vehicle that has waited longest at an Output, or any vehicle elsewhere. */
    method PickVehicle(owner: BufferId, vehicles: set<AgvId>) returns (v: AgvId)
      requires vehicles != {} && vehicles <= core.agvs.Keys && owner in core.c.buffers
      ensures v in vehicles
      ensures core.c.buffers[owner].role.Output? ==> forall w :: w in vehicles ==>
                core.agvs[v].arrivedAt < core.agvs[w].arrivedAt || (core.agvs[v].arrivedAt == core.agvs[w].arrivedAt && v <= w)
    {
      v :| v in vehicles;
      if core.c.buffers[owner].role.Output? {
        var others := vehicles - {v};
        while others != {}
          invariant v in vehicles && others <= vehicles
          invariant forall w :: w in vehicles && w !in others ==>
                      core.agvs[v].arrivedAt < core.agvs[w].arrivedAt || (core.agvs[v].arrivedAt == core.agvs[w].arrivedAt && v <= w)
          decreases |others|
        {
          var w :| w in others;
          others := others - {w};
          if core.agvs[w].arrivedAt < core.agvs[v].arrivedAt || (core.agvs[w].arrivedAt == core.agvs[v].arrivedAt && w < v) { v := w; }
        }
      }
    }

    /** One iteration at one owner: starts a service unless nothing more can be served there. */
    method ServeNext(owner: BufferId) returns (served: bool)
      requires Valid() && WellFormed(core.c) && Inv(core.c, core.View()) && owner in core.c.buffers
      modifies core`agvs, core`log, `run
      ensures Valid() && WellFormed(core.c) && Inv(core.c, core.View())
      ensures !served ==> core.View() == old(core.View()) && SiteDone(core.c, core.View(), owner)
      ensures served ==> exists v, kind, j, p :: ServedAt(core.c, old(core.View()), core.View(), owner, v, kind, j, p)
    {
      hide *;
      Opened();
      var c := core.c;
      ghost var u := core.View();
      var vehicles := SiteVehicles(c, core.View(), owner);
      SiteKnown(c, u, owner);
      if IsSource(c, owner) {
        var ready := Engine.ReadyJobs(core.View(), owner);
        if vehicles == {} || ready == {} {
          SiteIsDone(c, u, owner);
          return false;
        }
        var j :| j in ready;
        var v :| v in vehicles;
        SitePickup(c, u, owner, v, j);
        var p := core.jobs[j].loc.place;
        ServeOne(v, Pickup, j, p);
        SiteServed(c, u, core.View(), owner, v, Pickup, j, p);
      } else {
        var slot := Engine.FreeDrop(c, core.View(), owner, c.buffers[owner].declared);
        if vehicles == {} || slot.None? {
          SiteIsDone(c, u, owner);
          return false;
        }
        var v := PickVehicle(owner, vehicles);
        SiteDelivery(c, u, owner, v, slot.value);
        ServeOne(v, DropOff, core.agvs[v].job.value, Place(owner, slot.value));
        SiteServed(c, u, core.View(), owner, v, DropOff, u.agvs[v].job.value, Place(owner, slot.value));
      }
      Opened();
      served := true;
    }

    /** Serves at one owner until nothing more can be served there. */
    method ServeSite(owner: BufferId, ghost done: seq<BufferId>, ghost s: State)
      requires Valid() && WellFormed(core.c) && Inv(core.c, core.View()) && owner in core.c.buffers && owner !in done
      requires SitesDone(core.c, core.View(), done) && Phases.Began(core.c, s, core.View())
      modifies core`agvs, core`log, `run
      ensures Valid() && WellFormed(core.c) && Inv(core.c, core.View())
      ensures SitesDone(core.c, core.View(), done + [owner]) && Phases.Began(core.c, s, core.View())
    {
      hide *;
      Opened();
      var served := true;
      while served
        invariant Valid() && WellFormed(core.c) && Inv(core.c, core.View()) && SitesDone(core.c, core.View(), done)
        invariant Phases.Began(core.c, s, core.View())
        invariant !served ==> SiteDone(core.c, core.View(), owner)
        decreases SiteVehicles(core.c, core.View(), owner), served
      {
        ghost var u := core.View();
        served := ServeNext(owner);
        Opened();
        if served {
          ghost var v, kind, j, p :| ServedAt(core.c, u, core.View(), owner, v, kind, j, p);
          ServedElsewhere(core.c, u, core.View(), owner, v, kind, j, p, done);
          ServedBegan(core.c, s, u, core.View(), owner, v, kind, j, p);
        }
      }
      SitesGrow(core.c, core.View(), done, owner);
    }

    /** Site by site; afterwards nobody who stands at a port of its target could serve there. */
    method ServeSites()
      requires Valid()
      modifies core`agvs, core`log, `run
      ensures Valid() && WellFormed(core.c) && Inv(core.c, core.View()) && SitesDone(core.c, core.View(), core.c.bufferIds)
      ensures Phases.Began(core.c, old(core.View()), core.View()) && Phases.ServedOut(core.c, core.View())
    {
      hide *;
      Opened();
      var c := core.c;
      ghost var s := core.View();
      NoSites(c, s);
      Phases.NothingBegan(c, s);
      assert c.bufferIds[..0] == [];
      for i := 0 to |c.bufferIds|
        invariant Valid() && WellFormed(c) && Inv(c, core.View()) && SitesDone(c, core.View(), c.bufferIds[..i])
        invariant Phases.Began(c, s, core.View())
      {
        OwnerDistinct(c, i);
        assert c.bufferIds[..i + 1] == c.bufferIds[..i] + [c.bufferIds[i]];
        ServeSite(c.bufferIds[i], c.bufferIds[..i], s);
      }
      assert c.bufferIds[..|c.bufferIds|] == c.bufferIds;
      AllServed(c, core.View());
    }

    /** `decisions`: one whole zero-time phase. Every choice it makes is an enabled decision, the
        reservation checks pass at its end, and nothing more can be served at any owner. Reservations at open
        owners survive it, every machine that could run something runs one of its choices, whoever stands at
        its port and could serve does, and no vehicle whose turn to ask had come is left without a target while
        an owner that must accept could take it. */
    method Decide()
      requires Valid()
      modifies core`agvs, core`assignments, core`idleSince, core`log, core`machines, core`storage, core`jobs,
               core`wake, core`emptyWaitDue, `run, `rejected
      ensures Valid() && origin == old(origin) && WellFormed(core.c) && Inv(core.c, core.View()) && Stable(core.c, core.View())
      ensures CheckReservations(core.c, core.View()) && SitesDone(core.c, core.View(), core.c.bufferIds)
      ensures Done(core.c, core.View()) || Decided(core.c, core.View())
      ensures Phases.VehiclesKept(core.c, old(core.View()), core.View()) && Phases.Manned(core.c, old(core.View()), core.View())
      ensures Phases.ServedOut(core.c, core.View())
      ensures forall v :: v in core.agvs && MayAsk(core.tick, old(core.wake), old(core.emptyWaitDue), core.emptyWaitDue, core.reevaluateTicks, v) ==>
                NotLeftOut(core.c, core.View(), stopPre, stopPost, v)
    {
      hide *;
      ghost var s0, wake, due := core.View(), core.wake, core.emptyWaitDue;
      Opened();
      Synchronize();
      ghost var s1 := core.View();
      CancelStaleReservations();
      ghost var s2 := core.View();
      StartMachines();
      ghost var s3 := core.View();
      Opened();
      Negotiate();
      ghost var s4 := core.View();
      Opened();
      ServeSites();
      Opened();
      PhaseEnds(core.c, core.View());
      PhaseKeeps(core.c, s0, s1, s2, s3, s4, core.View(), Askers(core.c, s3, wake, due, core.reevaluateTicks));
      forall v | v in core.agvs && MayAsk(core.tick, wake, due, core.emptyWaitDue, core.reevaluateTicks, v)
        ensures NotLeftOut(core.c, core.View(), stopPre, stopPost, v)
      {
        AskedEnough(core.c, s3, s4, core.View(), rejected, wake, due, core.emptyWaitDue, core.reevaluateTicks, stopPre, stopPost, v);
      }
    }

    /** A new phase begins where the last interval ended. */
    method Restart()
      requires WellFormed(core.c) && Stable(core.c, core.View()) && !core.c.central && core.reevaluateTicks >= 1
      modifies `origin, `run
      ensures Valid() && origin == core.View() && run == []
    {
      origin, run := core.View(), [];
      DecidesNothing(core.c, core.View());
    }
  }

  /** The vehicle's turn to ask has come, and it did not choose to wait. */
  ghost predicate MayAsk(tick: int, wake: Wakings, due: map<AgvId, int>, waits: map<AgvId, int>, reevaluate: int, v: AgvId) {
    && (if v in due then due[v] <= tick else v !in wake || tick - wake[v].0 >= reevaluate)
    && !(v in waits && waits[v] == tick + 1)
  }

  /** The vehicle has a target, or no owner that must accept could take it. */
  ghost predicate NotLeftOut(c: Scenario, s: State, stopPre: bool, stopPost: bool, v: AgvId)
    requires WellFormed(c)
  {
    forall b {:trigger Phases.OpenTo(c, s, v, b)} :: Phases.OpenTo(c, s, v, b) ==> MayStop(c, b, stopPre, stopPost)
  }

  /** What a vehicle remembers of its last turn to ask: the owners open to it, in their order, with their quotas. */
  lemma {:induction false} OwnersMean(c: Scenario, s: State, v: AgvId, ids: seq<BufferId>)
    requires WellFormed(c) && Inv(c, s) && Shaped(c, s) && FlagsCurrent(c, s) && Aimed(s.agvs, s.assignments)
    ensures forall p :: p in Owners(c, s, v, ids) <==> p.0 in ids && p.0 in c.buffers && Phases.OpenTo(c, s, v, p.0) && p.1 == Quota(c, s, p.0)
  {
    hide WellFormed, Inv, Candidate, Quota, Shaped, FlagsCurrent, Aimed, Phases.OpenTo;
    if ids != [] {
      OwnersMean(c, s, v, ids[1..]);
      if ids[0] in c.buffers { Phases.OpenMeans(c, s, v, ids[0]); }
    }
  }

  lemma {:induction false} OwnersNone(c: Scenario, s: State, v: AgvId, ids: seq<BufferId>, b: BufferId)
    requires WellFormed(c) && Inv(c, s) && Owners(c, s, v, ids) == [] && b in ids && b in c.buffers
    ensures !Candidate(c, s, v, b)
  {
    hide WellFormed, Inv, Candidate, Quota;
    if b != ids[0] { OwnersNone(c, s, v, ids[1..], b); }
  }

  /** A candidate after others got targets was one before. */
  lemma CandidateBefore(c: Scenario, s: State, t: State, touched: set<AgvId>, v: AgvId, b: BufferId)
    requires WellFormed(c) && Inv(c, s) && Inv(c, t) && OnlyVehicles(s, t, touched) && Candidate(c, t, v, b)
    ensures Candidate(c, s, v, b) && v in s.agvs && t.agvs[v] == s.agvs[v]
  {
    CandidateParts(c, t, v, b);
    QuotaFalls(c, s, t, touched, b);
    assert Granted(s, t, v);
    hide WellFormed, Inv, Quota;
  }

  /** Services of others change nothing for a vehicle that looks for an owner. */
  lemma OpenBefore(c: Scenario, s: State, t: State, v: AgvId, b: BufferId)
    requires WellFormed(c) && Phases.Began(c, s, t) && Phases.OpenTo(c, t, v, b)
    ensures Phases.OpenTo(c, s, v, b)
  {
    assert Phases.RowBegan(c, s, t, v);
    VacancyBefore(c, s, t, b);
    hide WellFormed, Vacancy;
  }

  lemma VacancyBefore(c: Scenario, s: State, t: State, b: BufferId)
    requires WellFormed(c) && Phases.Began(c, s, t) && b in c.buffers
    ensures Vacancy(c, s, b) == Vacancy(c, t, b)
  {
    forall w | w in s.agvs ensures CommitsTo(s.agvs, s.assignments, w, b) == CommitsTo(t.agvs, t.assignments, w, b) { assert Phases.RowBegan(c, s, t, w); }
    assert Commits(s.agvs, s.assignments, b) == Commits(t.agvs, t.assignments, b);
    hide WellFormed, Phases.Began, StationCapacity;
  }

  lemma AskedEnough(c: Scenario, s: State, t: State, end: State, rejected: Refusals, wake: Wakings, due: map<AgvId, int>, waits: map<AgvId, int>,
                    reevaluate: int, stopPre: bool, stopPost: bool, v: AgvId)
    requires WellFormed(c) && Inv(c, s) && Inv(c, t) && Stable(c, t) && Shaped(c, t) && Phases.Began(c, t, end)
    requires OnlyVehicles(s, t, Askers(c, s, wake, due, reevaluate)) && Justified(c, t, rejected, stopPre, stopPost)
    requires v in s.agvs && (Wakes(c, s, wake, due, reevaluate, v) ==> Satisfied(c, t, rejected, waits, t.tick, v))
    requires MayAsk(end.tick, wake, due, waits, reevaluate, v)
    ensures NotLeftOut(c, end, stopPre, stopPost, v)
  {
    assert end.tick == t.tick == s.tick;
    hide WellFormed, Inv, Phases.Began, OnlyVehicles, Phases.OpenTo, DueReleased, MayStop, Askers, Shaped;
    forall b | Phases.OpenTo(c, end, v, b) ensures MayStop(c, b, stopPre, stopPost) {
      OpenBefore(c, t, end, v, b);
      Phases.OpenMeans(c, t, v, b);
      CandidateParts(c, t, v, b);
      CandidateBefore(c, s, t, Askers(c, s, wake, due, reevaluate), v, b);
      AskerRejected(c, s, t, rejected, wake, due, waits, reevaluate, stopPre, stopPost, v, b);
    }
  }

  lemma AskerRejected(c: Scenario, s: State, t: State, rejected: Refusals, wake: Wakings, due: map<AgvId, int>, waits: map<AgvId, int>,
                      reevaluate: int, stopPre: bool, stopPost: bool, v: AgvId, b: BufferId)
    requires WellFormed(c) && Inv(c, s) && Inv(c, t) && Justified(c, t, rejected, stopPre, stopPost) && s.tick == t.tick
    requires v in s.agvs && (Wakes(c, s, wake, due, reevaluate, v) ==> Satisfied(c, t, rejected, waits, t.tick, v))
    requires MayAsk(s.tick, wake, due, waits, reevaluate, v) && Candidate(c, s, v, b) && Candidate(c, t, v, b)
    ensures MayStop(c, b, stopPre, stopPost)
  {
    CandidateParts(c, s, v, b);
    CandidateParts(c, t, v, b);
    FreeVehicle(c, s, v, b);
    BuffersListed(c);
    hide WellFormed, Inv, Candidate, Quota, MayStop;
    if !Wakes(c, s, wake, due, reevaluate, v) { OwnersNone(c, s, v, c.bufferIds, b); }
  }

  lemma FreeVehicle(c: Scenario, s: State, v: AgvId, b: BufferId)
    requires WellFormed(c) && Inv(c, s) && Candidate(c, s, v, b)
    ensures v in s.agvs && s.agvs[v].target.None? && s.agvs[v].service.None?
  {
  }

  lemma PhaseKeeps(c: Scenario, s0: State, s1: State, s2: State, s3: State, s4: State, s5: State, touched: set<AgvId>)
    requires s1 == SyncIdle(c, s0) && Phases.StaleCancelled(c, s1, s2) && Phases.OnlyShop(s2, s3) && Phases.Manned(c, s2, s3)
    requires OnlyVehicles(s3, s4, touched) && Phases.Began(c, s4, s5)
    ensures Phases.VehiclesKept(c, s0, s5) && Phases.Manned(c, s0, s5)
  {
    assert s2.jobs == s0.jobs && s2.machines == s0.machines && s2.storage == s0.storage && s2.tick == s0.tick && s2.agvs.Keys == s0.agvs.Keys;
    assert s5.jobs == s3.jobs && s5.machines == s3.machines && s5.storage == s3.storage && s5.tick == s3.tick && s5.agvs.Keys == s3.agvs.Keys;
    Phases.MannedMoves(c, s2, s3, s0, s5);
    hide Phases.Manned, Phases.VehicleKept;
    forall v | v in s0.agvs ensures Phases.VehicleKept(c, s0, s5, v) {
      VehicleThrough(c, s0, s1, s2, s3, s4, s5, touched, v);
    }
  }

  lemma StaleRow(c: Scenario, s: State, t: State, v: AgvId)
    requires Phases.StaleCancelled(c, s, t) && v in s.agvs
    ensures v in t.agvs && t.agvs[v] == if Phases.Stale(c, s, v) then s.agvs[v].(target := None, service := None) else s.agvs[v]
  {
    assert ServiceTick.DroppedRow(s, t, (set w | w in s.agvs && Phases.Stale(c, s, w)), v);
    hide Phases.Stale, Phases.Told, Phases.ClocksAfter;
  }

  lemma GrantedRow(s: State, t: State, touched: set<AgvId>, v: AgvId)
    requires OnlyVehicles(s, t, touched) && v in s.agvs
    ensures v in t.agvs && t.agvs[v] == s.agvs[v].(target := t.agvs[v].target, arrivedAt := t.agvs[v].arrivedAt)
    ensures s.agvs[v].target.Some? || s.agvs[v].service.Some? ==> t.agvs[v] == s.agvs[v]
  {
    assert Granted(s, t, v);
  }

  lemma BeganRow(c: Scenario, s: State, t: State, v: AgvId)
    requires Phases.Began(c, s, t) && v in s.agvs
    ensures v in t.agvs && t.agvs[v] == s.agvs[v].(service := t.agvs[v].service)
    ensures s.agvs[v].service.Some? ==> t.agvs[v] == s.agvs[v]
  {
    assert Phases.RowBegan(c, s, t, v);
  }

  lemma VehicleThrough(c: Scenario, s0: State, s1: State, s2: State, s3: State, s4: State, s5: State, touched: set<AgvId>, v: AgvId)
    requires s1 == SyncIdle(c, s0) && Phases.StaleCancelled(c, s1, s2) && Phases.OnlyShop(s2, s3)
    requires OnlyVehicles(s3, s4, touched) && Phases.Began(c, s4, s5) && v in s0.agvs
    ensures Phases.VehicleKept(c, s0, s5, v)
  {
    ShutStill(c, s0);
    hide Phases.Shut, SyncIdle, Phases.StaleCancelled, OnlyVehicles, Phases.Began;
    StaleRow(c, s1, s2, v);
    assert s3.agvs == s2.agvs;
    GrantedRow(s3, s4, touched, v);
    BeganRow(c, s4, s5, v);
  }

  lemma ShutStill(c: Scenario, s: State)
    ensures SyncIdle(c, s).agvs == s.agvs && forall b :: Phases.Shut(c, SyncIdle(c, s), b) == Phases.Shut(c, s, b)
  {
  }

  lemma PhaseEnds(c: Scenario, s: State)
    requires WellFormed(c) && Inv(c, s) && Stable(c, s) && s.assignments == map[]
    ensures CheckReservations(c, s) && (Done(c, s) || Decided(c, s))
  {
    hide Inv, CheckReservations;
    ReservationsNeverFail(c, s);
  }

  // -- sites -----------------------------------------------------------------------------------

  /** Vehicles reserved for the owner that stand at one of its ports and are not serving. */
  function SiteVehicles(c: Scenario, s: State, owner: BufferId): set<AgvId> {
    set v | v in s.agvs && s.agvs[v].target == Some(owner) && s.agvs[v].service.None? && owner in c.ports && s.agvs[v].cell in c.ports[owner]
  }

  /** Nothing more can be served at the owner now. */
  predicate SiteDone(c: Scenario, s: State, owner: BufferId) {
    || owner !in c.buffers || SiteVehicles(c, s, owner) == {}
    || if IsSource(c, owner) then Engine.ReadyJobs(s, owner) == {} else Engine.FreeDrop(c, s, owner, c.buffers[owner].declared).None?
  }

  ghost predicate SitesDone(c: Scenario, s: State, owners: seq<BufferId>) {
    forall b {:trigger SiteDone(c, s, b)} :: b in owners ==> SiteDone(c, s, b)
  }

  /** One service was started at the owner. */
  ghost predicate ServedAt(c: Scenario, s: State, t: State, owner: BufferId, v: AgvId, kind: Kind, j: JobId, p: Place) {
    v in SiteVehicles(c, s, owner) && p.owner == owner && v in s.agvs && Servable(c, s, v, kind, j, p) && t == Serve(s, v, kind, j, p)
  }

  lemma SiteIsDone(c: Scenario, s: State, owner: BufferId)
    requires owner in c.buffers
    requires SiteVehicles(c, s, owner) == {} || (if IsSource(c, owner) then Engine.ReadyJobs(s, owner) == {}
                                                  else Engine.FreeDrop(c, s, owner, c.buffers[owner].declared).None?)
    ensures SiteDone(c, s, owner)
  {
  }

  lemma SiteKnown(c: Scenario, s: State, owner: BufferId)
    requires WellFormed(c) && owner in c.buffers
    ensures owner in c.ports && SiteVehicles(c, s, owner) <= s.agvs.Keys
  {
    assert GoodBuffer(c, owner);
  }

  lemma SitePickup(c: Scenario, s: State, owner: BufferId, v: AgvId, j: JobId)
    requires WellFormed(c) && Inv(c, s) && owner in c.buffers && owner in c.ports && IsSource(c, owner) && s.assignments == map[]
    requires v in SiteVehicles(c, s, owner) && j in Engine.ReadyJobs(s, owner)
    ensures v in s.agvs && j in s.jobs && s.jobs[j].loc.Stored? && s.jobs[j].loc.place.owner == owner
    ensures Servable(c, s, v, Pickup, j, s.jobs[j].loc.place)
  {
    assert VehicleOk(c, s.jobs, s.agvs[v]) && Located(s.jobs, s.queue, s.storage, s.machines, s.agvs, j);
    assert KnownPlace(c, s.jobs[j].loc.place);
  }

  lemma SiteDelivery(c: Scenario, s: State, owner: BufferId, v: AgvId, slot: SlotId)
    requires WellFormed(c) && Inv(c, s) && owner in c.buffers && owner in c.ports && !IsSource(c, owner) && s.assignments == map[]
    requires v in SiteVehicles(c, s, owner) && Engine.DropRoom(c, s, Place(owner, slot))
    ensures v in s.agvs && s.agvs[v].job.Some? && Servable(c, s, v, DropOff, s.agvs[v].job.value, Place(owner, slot))
  {
    assert VehicleOk(c, s.jobs, s.agvs[v]) && KnownPlace(c, Place(owner, slot));
    UnloadingCount(s, Place(owner, slot), c.agvIds);
    assert forall w :: w in c.agvIds <==> w in SetOf(c.agvIds);
    assert Unloaders(s, Place(owner, slot), c.agvIds) == Locked(s.agvs, Place(owner, slot));
  }

  lemma SiteServed(c: Scenario, s: State, t: State, owner: BufferId, v: AgvId, kind: Kind, j: JobId, p: Place)
    requires v in SiteVehicles(c, s, owner) && p.owner == owner && v in s.agvs && Servable(c, s, v, kind, j, p) && t == Serve(s, v, kind, j, p)
    ensures ServedAt(c, s, t, owner, v, kind, j, p)
  {
  }

  lemma ServableFits(c: Scenario, s: State, v: AgvId, kind: Kind, j: JobId, p: Place)
    requires Servable(c, s, v, kind, j, p)
    ensures Phases.Fits(c, s, v, Service(kind, j, p, s.tick, 1))
  {
  }

  lemma ServedBegan(c: Scenario, s: State, u: State, t: State, owner: BufferId, v: AgvId, kind: Kind, j: JobId, p: Place)
    requires Phases.Began(c, s, u) && ServedAt(c, u, t, owner, v, kind, j, p)
    ensures Phases.Began(c, s, t)
  {
    assert u.agvs.Keys == s.agvs.Keys;
    hide Phases.Began, Servable, Serve;
    ServableFits(c, u, v, kind, j, p);
    Phases.OneBegan(c, s, u, v, kind, j, p);
  }

  lemma AllServed(c: Scenario, s: State)
    requires WellFormed(c) && Inv(c, s) && SitesDone(c, s, c.bufferIds)
    ensures Phases.ServedOut(c, s)
  {
    BuffersListed(c);
    hide WellFormed, Inv, SiteDone;
    forall v | Phases.AtPort(c, s, v) ensures !Phases.CouldServe(c, s, v) {
      var b := s.agvs[v].target.value;
      Engine.TargetBuffer(c, s, v);
      assert SiteDone(c, s, b);
      SiteServes(c, s, v, b);
    }
  }

  lemma SiteServes(c: Scenario, s: State, v: AgvId, b: BufferId)
    requires WellFormed(c) && Inv(c, s) && Phases.AtPort(c, s, v) && s.agvs[v].target == Some(b) && b in c.buffers && SiteDone(c, s, b)
    ensures !Phases.CouldServe(c, s, v)
  {
    Engine.Listed(c, s);
    assert VehicleOk(c, s.jobs, s.agvs[v]);
    assert v in SiteVehicles(c, s, b);
    Engine.FreeDropMeans(c, s, b);
    forall j ensures j in Engine.ReadyJobs(s, b) <==> Phases.Available(s, b, j) { Engine.ReadyMeans(s, b, j); }
    hide WellFormed, Inv, Engine.FreeDrop, Engine.ReadyJobs, Phases.Available, Phases.RoomAt, SiteVehicles;
  }

  lemma {:induction false} UnloadingElsewhere(s: State, t: State, p: Place, ids: seq<AgvId>)
    requires t.agvs.Keys == s.agvs.Keys && forall w :: w in s.agvs ==> Locks(t.agvs[w], p) == Locks(s.agvs[w], p)
    ensures Unloading(t, p, ids) == Unloading(s, p, ids)
  {
    if ids != [] { UnloadingElsewhere(s, t, p, ids[1..]); }
  }

  lemma {:induction false} FreeDropElsewhere(c: Scenario, s: State, t: State, b: BufferId, slots: seq<SlotId>)
    requires forall k :: Engine.DropRoom(c, t, Place(b, k)) == Engine.DropRoom(c, s, Place(b, k))
    ensures Engine.FreeDrop(c, t, b, slots) == Engine.FreeDrop(c, s, b, slots)
  {
    if slots != [] { FreeDropElsewhere(c, s, t, b, slots[1..]); }
  }

  lemma ServedSite(c: Scenario, s: State, t: State, owner: BufferId, v: AgvId, kind: Kind, j: JobId, p: Place, b: BufferId)
    requires ServedAt(c, s, t, owner, v, kind, j, p) && b != owner && SiteDone(c, s, b)
    ensures SiteDone(c, t, b)
  {
    assert SiteVehicles(c, t, b) == SiteVehicles(c, s, b);
    assert Engine.ReadyJobs(t, b) <= Engine.ReadyJobs(s, b) by {
      forall i | i in Engine.ReadyJobs(t, b) ensures i in Engine.ReadyJobs(s, b) {
        forall w | w in s.agvs ensures !Loading(s.agvs[w], i) { assert !Loading(t.agvs[w], i); }
      }
    }
    forall k ensures Engine.DropRoom(c, t, Place(b, k)) == Engine.DropRoom(c, s, Place(b, k)) {
      UnloadingElsewhere(s, t, Place(b, k), c.agvIds);
    }
    if b in c.buffers { FreeDropElsewhere(c, s, t, b, c.buffers[b].declared); }
  }

  lemma ServedElsewhere(c: Scenario, s: State, t: State, owner: BufferId, v: AgvId, kind: Kind, j: JobId, p: Place, done: seq<BufferId>)
    requires ServedAt(c, s, t, owner, v, kind, j, p) && SitesDone(c, s, done) && owner !in done
    ensures SitesDone(c, t, done) && SiteVehicles(c, t, owner) < SiteVehicles(c, s, owner)
  {
    hide SiteDone;
    forall b | b in done ensures SiteDone(c, t, b) {
      assert SiteDone(c, s, b);
      ServedSite(c, s, t, owner, v, kind, j, p, b);
    }
    assert SiteVehicles(c, t, owner) == SiteVehicles(c, s, owner) - {v};
  }

  lemma SitesGrow(c: Scenario, s: State, done: seq<BufferId>, owner: BufferId)
    requires SitesDone(c, s, done) && SiteDone(c, s, owner)
    ensures SitesDone(c, s, done + [owner])
  {
    hide SiteDone;
    forall b | b in done + [owner] ensures SiteDone(c, s, b) {
      if b in done { assert SiteDone(c, s, b); }
    }
  }

  lemma NoSites(c: Scenario, s: State)
    ensures SitesDone(c, s, [])
  {
  }

  // -- rounds ----------------------------------------------------------------------------------

  /** Vehicles that left are under way or wait for the next tick. */
  ghost predicate Departed(agvs: Agvs, due: map<AgvId, int>, active: seq<AgvId>, next: seq<AgvId>, tick: int) {
    forall v {:trigger v in next} :: v in active && v !in next ==> v in agvs && (agvs[v].target.Some? || (v in due && due[v] == tick + 1))
  }

  /** Whoever waits for the next tick keeps waiting. */
  ghost predicate StillWaiting(before: map<AgvId, int>, after: map<AgvId, int>, tick: int) {
    forall v {:trigger v in after} :: v in before && before[v] == tick + 1 ==> v in after && after[v] == tick + 1
  }

  lemma WaitersStay(before: map<AgvId, int>, after: map<AgvId, int>, waited: set<AgvId>, tick: int)
    requires Waiters(before, after, waited, tick)
    ensures StillWaiting(before, after, tick)
  {
    forall v | v in before && before[v] == tick + 1 ensures v in after && after[v] == tick + 1 {
      if v !in waited { assert v in after || v !in before; }
    }
  }

  /** Nobody who is still asking has a candidate left. */
  ghost predicate Exhausted(c: Scenario, s: State, rejected: Refusals, due: map<AgvId, int>, active: seq<AgvId>, tick: int)
    requires WellFormed(c) && Inv(c, s)
  {
    forall v {:trigger v in active} :: v in active ==>
      (v in due && due[v] == tick + 1) || (v in rejected && AskSet(c, s, v, rejected[v]) == {})
  }

  /** Under way, waiting for the next tick, or rejected by every remaining candidate. */
  ghost predicate Satisfied(c: Scenario, s: State, rejected: Refusals, due: map<AgvId, int>, tick: int, v: AgvId)
    requires WellFormed(c) && Inv(c, s)
  {
    || (v in s.agvs && s.agvs[v].target.Some?) || (v in due && due[v] == tick + 1)
    || (v in rejected && forall b :: b in c.buffers && Candidate(c, s, v, b) ==> b in rejected[v])
  }

  function Remaining(active: seq<AgvId>, agvs: Agvs, waited: set<AgvId>): (r: seq<AgvId>)
    ensures forall v :: v in r <==> v in active && v in agvs && agvs[v].target.None? && v !in waited
    ensures multiset(r) <= multiset(active)
  {
    if active == [] then []
    else
      assert active == [active[0]] + active[1..];
      var v := active[0];
      (if v in agvs && agvs[v].target.None? && v !in waited then [v] else []) + Remaining(active[1..], agvs, waited)
  }

  /** Owners that have not rejected the asking vehicles yet, and the vehicles themselves. */
  ghost function Weight(active: seq<AgvId>, rejected: Refusals, owners: set<BufferId>): nat {
    if active == [] then 0
    else 1 + (if active[0] in rejected then |owners - rejected[active[0]]| else 0) + Weight(active[1..], rejected, owners)
  }

  lemma NobodyApplied(c: Scenario, s: State, rejected: Refusals, before: map<AgvId, int>, due: map<AgvId, int>, active: seq<AgvId>,
                      waited: set<AgvId>, tick: int)
    requires WellFormed(c) && Inv(c, s) && Applications(c, s, rejected, active, map[], waited) && Waiters(before, due, waited, tick)
    ensures Exhausted(c, s, rejected, due, active, tick) && Departed(s.agvs, due, active, active, tick) && Grown(rejected, rejected)
    ensures OnlyVehicles(s, s, SetOf(active))
  {
    hide Inv, WellFormed, AskSet;
  }

  lemma ApplicationsHope(c: Scenario, s: State, rejected: Refusals, active: seq<AgvId>, choice: map<AgvId, BufferId>, waited: set<AgvId>)
    requires WellFormed(c) && Inv(c, s) && Applications(c, s, rejected, active, choice, waited)
    ensures Hopeful(c, s, rejected, active, choice)
  {
    hide Inv, WellFormed, Applicable, Quota;
    forall v | v in choice ensures v in active && v in rejected && Applicable(c, s, v, choice[v]) {
      assert Applies(c, s, rejected, v, choice[v]);
    }
  }

  lemma OnlyApplicants(c: Scenario, s: State, t: State, before: Refusals, after: Refusals, active: seq<AgvId>,
                       choice: map<AgvId, BufferId>, waited: set<AgvId>)
    requires WellFormed(c) && Inv(c, s) && Applications(c, s, before, active, choice, waited)
    requires OnlyVehicles(s, t, choice.Keys) && Resolved(t.agvs, before, after, choice, c.bufferIds)
    ensures OnlyVehicles(s, t, SetOf(active)) && Grown(before, after)
  {
    hide Inv, WellFormed, AskSet;
  }

  lemma OwnersLeft(before: set<BufferId>, after: set<BufferId>, owners: set<BufferId>)
    requires before <= after
    ensures |owners - after| <= |owners - before|
    ensures (exists b :: b in owners && b in after && b !in before) ==> |owners - after| < |owners - before|
  {
    SubsetSize(owners - after, owners - before);
    if b :| b in owners && b in after && b !in before { SubsetSize(owners - after, owners - before - {b}); }
  }

  /** The weight never grows, and drops when one of the vehicles applied. */
  lemma {:induction false} WeightDrops(active: seq<AgvId>, agvs: Agvs, before: Refusals, after: Refusals, waited: set<AgvId>,
                                       choice: map<AgvId, BufferId>, owners: set<BufferId>)
    requires Grown(before, after) && forall v :: v in active ==> v in before
    requires forall v :: v in choice && v in active ==>
               v in after && choice[v] in owners && choice[v] !in before[v] && (choice[v] in after[v] || (v in agvs && agvs[v].target.Some?))
    ensures Weight(Remaining(active, agvs, waited), after, owners) <= Weight(active, before, owners)
    ensures (exists v :: v in active && v in choice) ==> Weight(Remaining(active, agvs, waited), after, owners) < Weight(active, before, owners)
  {
    if active != [] {
      var v, tail := active[0], active[1..];
      WeightDrops(tail, agvs, before, after, waited, choice, owners);
      assert v in after && before[v] <= after[v];
      OwnersLeft(before[v], after[v], owners);
      WeightStep(active, agvs, after, waited, owners);
      assert forall w :: w in active <==> w == v || w in tail;
      assert Weight(active, before, owners) == 1 + |owners - before[v]| + Weight(tail, before, owners);
      if v in choice && choice[v] in after[v] {
        assert choice[v] in owners && choice[v] !in before[v];
      } else if v in choice {
        assert v in agvs && agvs[v].target.Some?;
      } else if w :| w in active && w in choice {
        assert w in tail;
      }
    }
  }

  lemma WeightStep(active: seq<AgvId>, agvs: Agvs, after: Refusals, waited: set<AgvId>, owners: set<BufferId>)
    requires active != [] && active[0] in after
    ensures Weight(Remaining(active, agvs, waited), after, owners)
            == Weight(Remaining(active[1..], agvs, waited), after, owners)
               + if active[0] in agvs && agvs[active[0]].target.None? && active[0] !in waited then 1 + |owners - after[active[0]]| else 0
  {
    var v, rest := active[0], Remaining(active[1..], agvs, waited);
    if v in agvs && agvs[v].target.None? && v !in waited {
      assert Remaining(active, agvs, waited) == [v] + rest && ([v] + rest)[1..] == rest;
    } else {
      assert Remaining(active, agvs, waited) == rest;
    }
  }

  lemma RoundWeighs(c: Scenario, s: State, agvs: Agvs, before: Refusals, after: Refusals, active: seq<AgvId>,
                    choice: map<AgvId, BufferId>, waited: set<AgvId>)
    requires WellFormed(c) && Inv(c, s) && Applications(c, s, before, active, choice, waited) && choice != map[]
    requires Resolved(agvs, before, after, choice, c.bufferIds) && forall v :: v in active ==> v in before
    ensures Weight(Remaining(active, agvs, waited), after, c.buffers.Keys) < Weight(active, before, c.buffers.Keys)
  {
    hide Inv, WellFormed, Candidate;
    BuffersListed(c);
    forall v | v in choice && v in active
      ensures v in after && choice[v] in c.buffers.Keys && choice[v] !in before[v] && (choice[v] in after[v] || (v in agvs && agvs[v].target.Some?))
    {
      assert Applies(c, s, before, v, choice[v]);
    }
    var v :| v in choice;
    assert v in active;
    WeightDrops(active, agvs, before, after, waited, choice, c.buffers.Keys);
  }

  lemma BuffersListed(c: Scenario)
    requires WellFormed(c)
    ensures forall b :: b in c.buffers ==> b in c.bufferIds
  {
    assert forall b :: b in c.buffers ==> b in SetOf(c.bufferIds);
  }

  lemma RemainingIs(active: seq<AgvId>, agvs: Agvs, due: map<AgvId, int>, waited: set<AgvId>, before: map<AgvId, int>, tick: int)
    requires NoDup(active) && Waiters(before, due, waited, tick) && forall v :: v in active ==> v in agvs
    ensures NoDup(Remaining(active, agvs, waited)) && Departed(agvs, due, active, Remaining(active, agvs, waited), tick)
    ensures forall v :: v in Remaining(active, agvs, waited) ==> v in active
  {
    var r := Remaining(active, agvs, waited);
    forall v ensures multiset(r)[v] <= 1 { assert multiset(active)[v] <= 1; }
    WhoLeft(active, agvs, due, waited, before, tick);
  }

  lemma WhoLeft(active: seq<AgvId>, agvs: Agvs, due: map<AgvId, int>, waited: set<AgvId>, before: map<AgvId, int>, tick: int)
    requires Waiters(before, due, waited, tick) && forall v :: v in active ==> v in agvs
    ensures Departed(agvs, due, active, Remaining(active, agvs, waited), tick)
  {
  }

  lemma SameKeys(before: Refusals, after: Refusals)
    requires Grown(before, after)
    ensures after.Keys == before.Keys
  {
  }

  lemma NegotiationStarts(c: Scenario, s: State, due: map<AgvId, int>, asking: seq<AgvId>, tick: int)
    ensures OnlyVehicles(s, s, SetOf(asking)) && Departed(s.agvs, due, asking, asking, tick)
    ensures forall v :: v in SetOf(asking) <==> v in asking
  {
  }

  lemma RoundLeft(s: State, u: State, t: State, due: map<AgvId, int>, now: map<AgvId, int>, asking: seq<AgvId>, before: seq<AgvId>,
                  after: seq<AgvId>, tick: int)
    requires OnlyVehicles(s, u, SetOf(asking)) && OnlyVehicles(u, t, SetOf(before)) && StillWaiting(due, now, tick)
    requires Departed(u.agvs, due, asking, before, tick) && Departed(t.agvs, now, before, after, tick) && forall v :: v in after ==> v in before
    requires forall v :: v in before ==> v in asking
    ensures OnlyVehicles(s, t, SetOf(asking)) && Departed(t.agvs, now, asking, after, tick) && t.agvs.Keys == u.agvs.Keys
  {
    OnlyVehiclesOn(s, u, t, SetOf(asking), SetOf(before));
    hide Granted;
    forall v | v in asking && v !in after ensures v in t.agvs && (t.agvs[v].target.Some? || (v in now && now[v] == tick + 1)) {
      if v in before {
        assert !(v in after);
      } else {
        assert !(v in before) && v !in SetOf(before) && v in u.agvs;
        assert t.agvs[v] == u.agvs[v];
        assert v in now || v !in now;
      }
    }
  }

  lemma AllSatisfied(c: Scenario, s: State, rejected: Refusals, due: map<AgvId, int>, asking: seq<AgvId>, active: seq<AgvId>, going: bool,
                     tick: int)
    requires WellFormed(c) && Inv(c, s) && Departed(s.agvs, due, asking, active, tick)
    requires active == [] || !going
    requires !going ==> Exhausted(c, s, rejected, due, active, tick)
    ensures forall v :: v in asking ==> Satisfied(c, s, rejected, due, tick, v)
  {
    hide Inv, WellFormed, Candidate;
    forall v | v in asking ensures Satisfied(c, s, rejected, due, tick, v) {
      if v in active {
        assert (v in due && due[v] == tick + 1) || (v in rejected && AskSet(c, s, v, rejected[v]) == {});
        if v in rejected && AskSet(c, s, v, rejected[v]) == {} {
          forall b | b in c.buffers && Candidate(c, s, v, b) ensures b in rejected[v] { assert b !in AskSet(c, s, v, rejected[v]); }
        }
      } else {
        assert !(v in active);
      }
    }
  }

  // -- rejections ------------------------------------------------------------------------------

  type Refusals = map<AgvId, set<BufferId>>

  /** Exactly the listed vehicles gained this rejection. */
  ghost predicate Added(before: Refusals, after: Refusals, left: seq<AgvId>, owner: BufferId) {
    && after.Keys == before.Keys
    && forall v {:trigger after[v]} :: v in before ==> after[v] == if v in left then before[v] + {owner} else before[v]
  }

  lemma AddNothing(before: Refusals, owner: BufferId)
    ensures Added(before, before, [], owner)
  {
  }

  /** Rejections are never withdrawn. */
  ghost predicate Grown(before: Refusals, after: Refusals) {
    after.Keys == before.Keys && forall v {:trigger after[v]} :: v in before ==> before[v] <= after[v]
  }

  /** Every applicant is accepted or rejected; nobody else is. */
  ghost predicate Answered(agvs: Agvs, before: Refusals, after: Refusals, waiting: seq<AgvId>, owner: BufferId) {
    && Grown(before, after)
    && (forall v {:trigger after[v]} :: v in before && v !in waiting ==> after[v] == before[v])
    && forall v {:trigger v in waiting} :: v in waiting && v in after ==>
         owner in after[v] || (v in agvs && agvs[v].target == Some(owner))
  }

  /** The owner's policy may refuse an applicant although there is room. */
  predicate MayStop(c: Scenario, b: BufferId, stopPre: bool, stopPost: bool) {
    b in c.buffers && ((c.buffers[b].role.Pre? && stopPre) || (c.buffers[b].role.Post? && stopPost))
  }

  lemma MayStopMeans(c: Scenario, b: BufferId, mayStop: bool, stopPre: bool, stopPost: bool)
    requires b in c.buffers && mayStop == match c.buffers[b].role case Pre(m) => stopPre case Post(m) => stopPost case _ => false
    ensures mayStop == MayStop(c, b, stopPre, stopPost)
  {
  }

  /** Whoever rejected a vehicle has no room now, or was free to stop. */
  ghost predicate Justified(c: Scenario, s: State, rejected: Refusals, stopPre: bool, stopPost: bool)
    requires WellFormed(c)
  {
    forall v, b {:trigger b in rejected[v]} :: v in rejected && b in rejected[v] ==>
      b in c.buffers && (MayStop(c, b, stopPre, stopPost) || Quota(c, s, b) <= 0)
  }

  lemma {:induction false} CommitmentsGrow(s: State, t: State, b: BufferId, ids: seq<AgvId>)
    requires forall v :: Committed(s, v, b) ==> Committed(t, v, b)
    ensures |Commitments(s, b, ids)| <= |Commitments(t, b, ids)|
  {
    if ids != [] { CommitmentsGrow(s, t, b, ids[1..]); }
  }

  /** New targets never make room. */
  lemma QuotaFalls(c: Scenario, s: State, t: State, touched: set<AgvId>, b: BufferId)
    requires WellFormed(c) && OnlyVehicles(s, t, touched) && b in c.buffers
    ensures Quota(c, t, b) <= Quota(c, s, b)
  {
    forall v ensures Committed(s, v, b) ==> Committed(t, v, b) { assert v in s.agvs ==> Granted(s, t, v); }
    CommitmentsGrow(s, t, b, c.agvIds);
    assert GoodBuffer(c, b);
    if c.buffers[b].role.Pre? {
      assert GoodMachine(c, c.buffers[b].role.machine);
      SameItems(s, t, c.post[c.buffers[b].role.machine], c.buffers[c.post[c.buffers[b].role.machine]].declared);
    }
    SameItems(s, t, b, c.buffers[b].declared);
    hide WellFormed, OnlyVehicles, Committed, Commitments, StationCapacity;
  }

  lemma JustifiedOn(c: Scenario, s: State, t: State, touched: set<AgvId>, rejected: Refusals, stopPre: bool, stopPost: bool)
    requires WellFormed(c) && OnlyVehicles(s, t, touched) && Justified(c, s, rejected, stopPre, stopPost)
    ensures Justified(c, t, rejected, stopPre, stopPost)
  {
    hide WellFormed, OnlyVehicles, Quota, MayStop;
    forall v, b | v in rejected && b in rejected[v] ensures b in c.buffers && (MayStop(c, b, stopPre, stopPost) || Quota(c, t, b) <= 0) {
      QuotaFalls(c, s, t, touched, b);
    }
  }

  lemma JustifiedMore(c: Scenario, s: State, before: Refusals, after: Refusals, left: seq<AgvId>, owner: BufferId, stopPre: bool, stopPost: bool)
    requires WellFormed(c) && Justified(c, s, before, stopPre, stopPost) && Added(before, after, left, owner) && owner in c.buffers
    requires left != [] ==> MayStop(c, owner, stopPre, stopPost) || Quota(c, s, owner) <= 0
    ensures Justified(c, s, after, stopPre, stopPost)
  {
    hide WellFormed, Quota, MayStop;
    forall v, b | v in after && b in after[v] ensures b in c.buffers && (MayStop(c, b, stopPre, stopPost) || Quota(c, s, b) <= 0) {
      assert v in before && after[v] == if v in left then before[v] + {owner} else before[v];
    }
  }

  lemma NobodyRejected(c: Scenario, s: State, rejected: Refusals, stopPre: bool, stopPost: bool)
    requires WellFormed(c) && forall v :: v in rejected ==> rejected[v] == {}
    ensures Justified(c, s, rejected, stopPre, stopPost)
  {
  }

  /** The vehicles that ask in this phase. */
  ghost function Askers(c: Scenario, s: State, wake: Wakings, due: map<AgvId, int>, reevaluate: int): set<AgvId>
    requires WellFormed(c) && Inv(c, s)
  {
    set v | v in s.agvs && Wakes(c, s, wake, due, reevaluate, v)
  }

  lemma AskersListed(c: Scenario, s: State, wake: Wakings, due: map<AgvId, int>, reevaluate: int, asking: seq<AgvId>)
    requires WellFormed(c) && Inv(c, s)
    requires forall v :: v in asking <==> v in s.agvs && Wakes(c, s, wake, due, reevaluate, v)
    ensures SetOf(asking) == Askers(c, s, wake, due, reevaluate)
  {
    hide WellFormed, Inv, Wakes;
  }

  lemma WaitsOwner(c: Scenario, s: State, waiting: seq<AgvId>, owner: BufferId)
    requires WellFormed(c) && Inv(c, s) && Waits(c, s, waiting, owner)
    ensures owner in c.buffers
  {
  }

  lemma AllAnswered(agvs: Agvs, before: Refusals, after: Refusals, waiting: seq<AgvId>, left: seq<AgvId>, owner: BufferId)
    requires Taken(agvs, waiting, left, owner) && Added(before, after, left, owner) && forall v :: v in left ==> v in waiting
    ensures Answered(agvs, before, after, waiting, owner)
  {
    forall v | v in waiting && v in after ensures owner in after[v] || (v in agvs && agvs[v].target == Some(owner)) {
      assert v in before;
      assert v in left || !(v in left);
    }
  }

  // -- applications ----------------------------------------------------------------------------

  /** Candidates that have not rejected the vehicle yet. */
  function AskSet(c: Scenario, s: State, v: AgvId, refused: set<BufferId>): set<BufferId>
    requires WellFormed(c) && Inv(c, s)
  {
    set b | b in c.buffers && b !in refused && Candidate(c, s, v, b)
  }

  ghost predicate Applies(c: Scenario, s: State, rejected: Refusals, v: AgvId, b: BufferId)
    requires WellFormed(c) && Inv(c, s)
  {
    v in rejected && b in AskSet(c, s, v, rejected[v])
  }

  /** Every asking vehicle applied to a candidate, or waits, or has no candidate left. */
  ghost predicate Applications(c: Scenario, s: State, rejected: Refusals, active: seq<AgvId>, choice: map<AgvId, BufferId>, waited: set<AgvId>)
    requires WellFormed(c) && Inv(c, s)
  {
    && (forall v :: v in choice || v in waited ==> v in active)
    && (forall v {:trigger choice[v]} :: v in choice ==> Applies(c, s, rejected, v, choice[v]))
    && (forall v {:trigger v in active} :: v in active ==>
          v in choice || v in waited || (v in rejected && AskSet(c, s, v, rejected[v]) == {}))
  }

  /** The waiting vehicles are due again at the next tick. */
  ghost predicate Waiters(before: map<AgvId, int>, after: map<AgvId, int>, waited: set<AgvId>, tick: int) {
    && (forall v {:trigger v in waited} :: v in waited ==> v in after && after[v] == tick + 1)
    && (forall v {:trigger v in after} :: v !in waited ==> (v in after <==> v in before) && (v in after ==> after[v] == before[v]))
  }

  lemma NoApplications(c: Scenario, s: State, rejected: Refusals, due: map<AgvId, int>, tick: int)
    requires WellFormed(c) && Inv(c, s)
    ensures Applications(c, s, rejected, [], map[], {}) && Waiters(due, due, {}, tick)
  {
  }

  lemma BeforeDistinct(active: seq<AgvId>, i: nat)
    requires NoDup(active) && i < |active|
    ensures active[i] !in active[..i] && active[i] in active
  {
    forall k | 0 <= k < i ensures active[k] != active[i] { NoDupIndex(active, k, i); }
  }

  lemma OneWaits(before: map<AgvId, int>, now: map<AgvId, int>, waited: set<AgvId>, tick: int, v: AgvId)
    requires Waiters(before, now, waited, tick)
    ensures Waiters(before, now[v := tick + 1], waited + {v}, tick)
  {
  }

  /** What each of the three possibilities makes of the applications so far. */
  lemma NextApplication(c: Scenario, s: State, rejected: Refusals, active: seq<AgvId>, choice: map<AgvId, BufferId>,
                        waited: set<AgvId>, v: AgvId)
    requires WellFormed(c) && Inv(c, s) && Applications(c, s, rejected, active, choice, waited) && v !in active && v in rejected
    ensures AskSet(c, s, v, rejected[v]) == {} ==> Applications(c, s, rejected, active + [v], choice, waited)
    ensures Applications(c, s, rejected, active + [v], choice, waited + {v})
    ensures forall b :: b in AskSet(c, s, v, rejected[v]) ==> Applications(c, s, rejected, active + [v], choice[v := b], waited)
  {
    hide Inv, WellFormed, AskSet;
  }

  /** Applicants are candidates' choices among the asking vehicles, none rejected yet. */
  ghost predicate Hopeful(c: Scenario, s: State, rejected: Refusals, active: seq<AgvId>, choice: map<AgvId, BufferId>)
    requires WellFormed(c) && Inv(c, s)
  {
    forall v {:trigger choice[v]} :: v in choice ==> v in active && v in rejected && Applicable(c, s, v, choice[v])
  }

  /** The vehicles that applied to the owner, in order. */
  function Applicants(active: seq<AgvId>, choice: map<AgvId, BufferId>, owner: BufferId): (r: seq<AgvId>)
    ensures forall v :: v in r <==> v in active && v in choice && choice[v] == owner
    ensures multiset(r) <= multiset(active)
  {
    if active == [] then []
    else
      assert active == [active[0]] + active[1..];
      (if active[0] in choice && choice[active[0]] == owner then [active[0]] else []) + Applicants(active[1..], choice, owner)
  }

  /** Applicants of the owners not yet asked. */
  ghost predicate StillHopeful(c: Scenario, s: State, rejected: Refusals, active: seq<AgvId>, choice: map<AgvId, BufferId>, asked: seq<BufferId>)
    requires WellFormed(c) && Inv(c, s)
  {
    forall v {:trigger choice[v]} :: v in choice ==>
      v in active && v in rejected && (choice[v] !in asked ==> Applicable(c, s, v, choice[v]))
  }

  /** The applicants of the owners asked so far are accepted or rejected, nobody else is. */
  ghost predicate Resolved(agvs: Agvs, before: Refusals, after: Refusals, choice: map<AgvId, BufferId>, asked: seq<BufferId>) {
    && Grown(before, after)
    && (forall v {:trigger after[v]} :: v in before && v !in choice ==> after[v] == before[v])
    && forall v {:trigger choice[v]} :: v in choice && v in after && choice[v] in asked ==>
         choice[v] in after[v] || (v in agvs && agvs[v].target == Some(choice[v]))
  }

  lemma NoneAnswered(c: Scenario, s: State, rejected: Refusals, active: seq<AgvId>, choice: map<AgvId, BufferId>)
    requires WellFormed(c) && Inv(c, s) && Hopeful(c, s, rejected, active, choice)
    ensures StillHopeful(c, s, rejected, active, choice, []) && OnlyVehicles(s, s, choice.Keys)
    ensures Resolved(s.agvs, rejected, rejected, choice, [])
  {
    hide Inv, WellFormed, Applicable;
  }

  lemma OwnerDistinct(c: Scenario, i: nat)
    requires WellFormed(c) && i < |c.bufferIds|
    ensures c.bufferIds[i] !in c.bufferIds[..i] && c.bufferIds[i] in c.buffers
  {
    assert c.bufferIds[i] in SetOf(c.bufferIds);
    forall k | 0 <= k < i ensures c.bufferIds[k] != c.bufferIds[i] { NoDupIndex(c.bufferIds, k, i); }
  }

  lemma ApplicantsWait(c: Scenario, s: State, rejected: Refusals, active: seq<AgvId>, choice: map<AgvId, BufferId>,
                       asked: seq<BufferId>, owner: BufferId)
    requires WellFormed(c) && Inv(c, s) && NoDup(active) && StillHopeful(c, s, rejected, active, choice, asked)
    requires owner !in asked && owner in c.buffers
    ensures var waiting := Applicants(active, choice, owner);
            NoDup(waiting) && Waits(c, s, waiting, owner) && forall v :: v in waiting ==> v in rejected
  {
    hide Inv, WellFormed, Applicable;
    var waiting := Applicants(active, choice, owner);
    forall v ensures multiset(waiting)[v] <= 1 { assert multiset(active)[v] <= 1; }
    forall v | v in waiting ensures Applicable(c, s, v, owner) { assert choice[v] == owner; }
  }

  lemma OwnerAnswered(c: Scenario, s: State, u: State, t: State, refused: Refusals, before: Refusals, after: Refusals,
                      active: seq<AgvId>, choice: map<AgvId, BufferId>, asked: seq<BufferId>, owner: BufferId)
    requires WellFormed(c) && Inv(c, u) && Inv(c, t) && StillHopeful(c, u, before, active, choice, asked)
    requires OnlyVehicles(s, u, choice.Keys) && Resolved(u.agvs, refused, before, choice, asked)
    requires var waiting := Applicants(active, choice, owner);
             OnlyVehicles(u, t, SetOf(waiting)) && Answered(t.agvs, before, after, waiting, owner)
    requires owner !in asked
    ensures StillHopeful(c, t, after, active, choice, asked + [owner]) && OnlyVehicles(s, t, choice.Keys)
    ensures Resolved(t.agvs, refused, after, choice, asked + [owner])
  {
    hide Inv, WellFormed, Applicable, Resolved, Answered, Granted;
    var waiting := Applicants(active, choice, owner);
    OnlyVehiclesOn(s, u, t, choice.Keys, SetOf(waiting));
    forall v | v in choice && choice[v] !in asked + [owner] ensures Applicable(c, t, v, choice[v]) {
      assert v !in waiting;
      ApplicableElsewhere(c, u, t, SetOf(waiting), v, choice[v]);
    }
    assert after.Keys == before.Keys by { SameRefusals(t.agvs, before, after, waiting, owner); }
    ResolveOwner(u.agvs, t.agvs, refused, before, after, active, choice, asked, owner);
  }

  lemma SameRefusals(agvs: Agvs, before: Refusals, after: Refusals, waiting: seq<AgvId>, owner: BufferId)
    requires Answered(agvs, before, after, waiting, owner)
    ensures after.Keys == before.Keys
  {
  }

  lemma ResolveOwner(agvs: Agvs, agvs': Agvs, refused: Refusals, before: Refusals, after: Refusals, active: seq<AgvId>,
                     choice: map<AgvId, BufferId>, asked: seq<BufferId>, owner: BufferId)
    requires Resolved(agvs, refused, before, choice, asked) && Answered(agvs', before, after, Applicants(active, choice, owner), owner)
    requires agvs'.Keys == agvs.Keys && forall v :: v in agvs && v !in Applicants(active, choice, owner) ==> agvs'[v] == agvs[v]
    requires forall v :: v in choice ==> v in active
    ensures Resolved(agvs', refused, after, choice, asked + [owner])
  {
    var waiting := Applicants(active, choice, owner);
    forall v | v in refused ensures refused[v] <= after[v] { assert refused[v] <= before[v] <= after[v]; }
    forall v | v in choice && v in after && choice[v] in asked + [owner]
      ensures choice[v] in after[v] || (v in agvs' && agvs'[v].target == Some(choice[v]))
    {
      if choice[v] == owner { assert v in waiting; } else { assert v !in waiting; }
    }
  }

  // -- applicants of one owner -----------------------------------------------------------------

  lemma CandidateParts(c: Scenario, s: State, v: AgvId, b: BufferId)
    requires WellFormed(c) && Inv(c, s) && Candidate(c, s, v, b)
    ensures v in s.agvs && s.agvs[v].target.None? && b in c.buffers && Quota(c, s, b) > 0
  {
  }

  ghost predicate Waits(c: Scenario, s: State, waiting: seq<AgvId>, owner: BufferId)
    requires WellFormed(c) && Inv(c, s)
  {
    owner in c.buffers && forall v {:trigger Applicable(c, s, v, owner)} :: v in waiting ==> Applicable(c, s, v, owner)
  }

  /** The owner has quota for `n` more applicants whatever happens. */
  predicate TakesAll(c: Scenario, s: State, owner: BufferId, n: int)
    requires WellFormed(c)
  {
    owner in c.buffers && (c.buffers[owner].role.Output? || (c.buffers[owner].role.Input? && n <= Quota(c, s, owner)))
  }

  /** Nothing but the reservations of these vehicles changes. */
  ghost predicate OnlyVehicles(s: State, t: State, touched: set<AgvId>) {
    && t.jobs == s.jobs && t.machines == s.machines && t.storage == s.storage && t.assignments == s.assignments
    && t.tick == s.tick && t.agvs.Keys == s.agvs.Keys
    && (forall v {:trigger t.agvs[v]} :: v in s.agvs && v !in touched ==> t.agvs[v] == s.agvs[v])
    && forall v {:trigger Granted(s, t, v)} :: v in s.agvs ==> Granted(s, t, v)
  }

  /** The vehicle keeps its row or, having had none, got a target now. */
  ghost predicate Granted(s: State, t: State, v: AgvId) {
    v in s.agvs && v in t.agvs &&
    (t.agvs[v] == s.agvs[v]
     || (s.agvs[v].target.None? && s.agvs[v].service.None? && t.agvs[v].target.Some?
         && t.agvs[v] == s.agvs[v].(target := t.agvs[v].target, arrivedAt := s.tick)))
  }

  lemma OnlyVehiclesOn(s: State, u: State, t: State, touched: set<AgvId>, more: set<AgvId>)
    requires OnlyVehicles(s, u, touched) && OnlyVehicles(u, t, more) && more <= touched
    ensures OnlyVehicles(s, t, touched)
  {
    GrantedOn(s, u, t);
    hide Granted;
  }

  lemma GrantedOn(s: State, u: State, t: State)
    requires s.agvs.Keys == u.agvs.Keys && u.tick == s.tick
    requires (forall v {:trigger Granted(s, u, v)} :: v in s.agvs ==> Granted(s, u, v)) && forall v {:trigger Granted(u, t, v)} :: v in u.agvs ==> Granted(u, t, v)
    ensures forall v {:trigger Granted(s, t, v)} :: v in s.agvs ==> Granted(s, t, v)
  {
    forall v | v in s.agvs ensures Granted(s, t, v) { assert Granted(s, u, v) && Granted(u, t, v); }
  }

  /** Every applicant has been taken or is left. */
  ghost predicate Taken(agvs: Agvs, waiting: seq<AgvId>, left: seq<AgvId>, owner: BufferId) {
    forall v {:trigger v in left} :: v in waiting ==> v in left || (v in agvs && agvs[v].target == Some(owner))
  }

  lemma AcceptStarts(c: Scenario, s: State, waiting: seq<AgvId>, owner: BufferId)
    requires WellFormed(c) && Inv(c, s) && Waits(c, s, waiting, owner)
    ensures owner in c.buffers && OnlyVehicles(s, s, SetOf(waiting)) && Taken(s.agvs, waiting, waiting, owner)
  {
  }

  lemma NextWaits(c: Scenario, s: State, waiting: seq<AgvId>, i: nat, owner: BufferId)
    requires WellFormed(c) && Inv(c, s) && i < |waiting| && Waits(c, s, waiting[i..], owner) && TakesAll(c, s, owner, |waiting| - i)
    ensures Candidate(c, s, waiting[i], owner) && waiting[i] in s.agvs
  {
    assert waiting[i] in waiting[i..];
    assert Applicable(c, s, waiting[i], owner);
  }

  lemma SomeWaits(c: Scenario, s: State, left: seq<AgvId>, v: AgvId, owner: BufferId)
    requires WellFormed(c) && Inv(c, s) && Waits(c, s, left, owner) && v in left && Quota(c, s, owner) > 0
    ensures Candidate(c, s, v, owner) && v in s.agvs
  {
    assert Applicable(c, s, v, owner);
  }

  lemma RestDistinct(waiting: seq<AgvId>, i: nat)
    requires NoDup(waiting) && i < |waiting|
    ensures waiting[i] !in waiting[i + 1..] && forall w :: w in waiting[i..] <==> w == waiting[i] || w in waiting[i + 1..]
  {
    assert waiting[i..] == [waiting[i]] + waiting[i + 1..];
    forall k | i < k < |waiting| ensures waiting[k] != waiting[i] { NoDupIndex(waiting, i, k); }
  }

  lemma ApplicableFree(c: Scenario, s: State, v: AgvId, b: BufferId)
    requires WellFormed(c) && Inv(c, s) && Applicable(c, s, v, b)
    ensures v in s.agvs && s.agvs[v].target.None? && s.agvs[v].service.None?
  {
  }

  lemma AcceptTouches(c: Scenario, s: State, v: AgvId, b: BufferId)
    requires v in s.agvs && s.agvs[v].target.None? && s.agvs[v].service.None?
    ensures OnlyVehicles(s, Accept(c, s, v, b), {v}) && Accept(c, s, v, b).agvs[v].target == Some(b)
  {
  }

  lemma ApplicableElsewhere(c: Scenario, s: State, t: State, touched: set<AgvId>, v: AgvId, b: BufferId)
    requires WellFormed(c) && Inv(c, s) && Inv(c, t) && OnlyVehicles(s, t, touched) && v !in touched && Applicable(c, s, v, b)
    ensures Applicable(c, t, v, b)
  {
  }

  /** Accepting one applicant. */
  lemma OneTaken(c: Scenario, s: State, u: State, t: State, waiting: seq<AgvId>, before: seq<AgvId>, v: AgvId, left: seq<AgvId>,
                 owner: BufferId, n: int)
    requires WellFormed(c) && Inv(c, u) && Inv(c, t) && v in u.agvs && t == Accept(c, u, v, owner) && v in before
    requires (forall w :: w in before <==> w == v || w in left) && v !in left
    requires OnlyVehicles(s, u, SetOf(waiting)) && Taken(u.agvs, waiting, before, owner) && Waits(c, u, before, owner)
    requires forall w :: w in before ==> w in waiting
    ensures OnlyVehicles(s, t, SetOf(waiting)) && Taken(t.agvs, waiting, left, owner) && Waits(c, t, left, owner)
    ensures TakesAll(c, u, owner, n) ==> TakesAll(c, t, owner, n - 1)
  {
    hide Inv, WellFormed, Applicable, Quota, Accept;
    assert Applicable(c, u, v, owner);
    ApplicableFree(c, u, v, owner);
    AcceptTouches(c, u, v, owner);
    OnlyVehiclesOn(s, u, t, SetOf(waiting), {v});
    forall w | w in left ensures Applicable(c, t, w, owner) {
      assert Applicable(c, u, w, owner);
      ApplicableElsewhere(c, u, t, {v}, w, owner);
    }
    if TakesAll(c, u, owner, n) && c.buffers[owner].role.Input? { QuotaAfter(c, u, v, owner); }
  }

  lemma {:induction false} CommitmentsAfter(s: State, t: State, b: BufferId, ids: seq<AgvId>, v: AgvId)
    requires NoDup(ids) && t.assignments == s.assignments && t.agvs.Keys == s.agvs.Keys
    requires forall w :: w in s.agvs && w != v ==> t.agvs[w] == s.agvs[w]
    ensures |Commitments(t, b, ids)| <= |Commitments(s, b, ids)| + if v in ids then 1 else 0
  {
    if ids != [] {
      var rest := ids[1..];
      assert ids == [ids[0]] + rest;
      assert multiset(ids)[ids[0]] <= 1;
      forall k ensures multiset(rest)[k] <= 1 { assert multiset(ids)[k] <= 1; }
      CommitmentsAfter(s, t, b, rest, v);
      assert v in ids <==> v == ids[0] || v in rest;
      assert v == ids[0] ==> v !in rest;
    }
  }

  lemma SameItems(s: State, t: State, b: BufferId, slots: seq<SlotId>)
    requires t.storage == s.storage
    ensures ItemsIn(t, b, slots) == ItemsIn(s, b, slots)
  {
    if slots != [] { SameItems(s, t, b, slots[1..]); }
  }

  lemma QuotaAfter(c: Scenario, s: State, v: AgvId, b: BufferId)
    requires WellFormed(c) && v in s.agvs && b in c.buffers && c.buffers[b].role.Input?
    ensures Quota(c, Accept(c, s, v, b), b) >= Quota(c, s, b) - 1
  {
    var t := Accept(c, s, v, b);
    CommitmentsAfter(s, t, b, c.agvIds, v);
    SameItems(s, t, b, c.buffers[b].declared);
  }

  // -- the search for asking vehicles ----------------------------------------------------------

  type Wakings = map<AgvId, (int, seq<(BufferId, int)>)>

  /** The vehicle asks again: it is free and has candidates, and its wait is over, its opportunities
      changed, or it last asked long enough ago. */
  ghost predicate Wakes(c: Scenario, s: State, wake: Wakings, due: map<AgvId, int>, reevaluate: int, v: AgvId)
    requires WellFormed(c) && Inv(c, s)
  {
    var owners := Owners(c, s, v, c.bufferIds);
    && v in s.agvs && s.agvs[v].target.None? && s.agvs[v].service.None? && owners != []
    && (v in due ==> due[v] <= s.tick)
    && (v in due || v !in wake || wake[v].1 != owners || s.tick - wake[v].0 >= reevaluate)
  }

  lemma WakesIs(c: Scenario, s: State, wake: Wakings, due: map<AgvId, int>, reevaluate: int, v: AgvId)
    requires WellFormed(c) && Inv(c, s) && v in s.agvs
    ensures Wakes(c, s, wake, due, reevaluate, v) <==>
            && s.agvs[v].target.None? && s.agvs[v].service.None? && Owners(c, s, v, c.bufferIds) != []
            && (v in due ==> due[v] <= s.tick)
            && (v in due || v !in wake || wake[v].1 != Owners(c, s, v, c.bufferIds) || s.tick - wake[v].0 >= reevaluate)
  {
  }

  /** Entries of vehicles from `n` on are untouched. */
  ghost predicate Unseen<T>(c: Scenario, now: map<AgvId, T>, before: map<AgvId, T>, n: nat) {
    forall k {:trigger c.agvIds[k]} :: n <= k < |c.agvIds| ==>
      (c.agvIds[k] in now <==> c.agvIds[k] in before) && (c.agvIds[k] in now ==> now[c.agvIds[k]] == before[c.agvIds[k]])
  }

  ghost predicate Found(c: Scenario, s: State, wake: Wakings, due: map<AgvId, int>, reevaluate: int, active: seq<AgvId>, n: nat)
    requires WellFormed(c) && Inv(c, s)
  {
    && NoDup(active) && n <= |c.agvIds|
    && forall v {:trigger v in active} :: v in active <==> v in c.agvIds[..n] && Wakes(c, s, wake, due, reevaluate, v)
  }

  lemma NothingFound(c: Scenario, s: State, wake: Wakings, due: map<AgvId, int>, reevaluate: int)
    requires WellFormed(c) && Inv(c, s)
    ensures Found(c, s, wake, due, reevaluate, [], 0) && Unseen(c, wake, wake, 0) && Unseen(c, due, due, 0)
  {
    hide Inv, WellFormed, Wakes;
  }

  lemma FindOne(c: Scenario, s: State, wake: Wakings, due: map<AgvId, int>, reevaluate: int, active: seq<AgvId>, n: nat,
                asks: bool, wake1: Wakings, due1: map<AgvId, int>, wake2: Wakings, due2: map<AgvId, int>)
    requires WellFormed(c) && Inv(c, s) && NoDup(c.agvIds) && n < |c.agvIds| && Found(c, s, wake, due, reevaluate, active, n)
    requires Unseen(c, wake1, wake, n) && Unseen(c, due1, due, n) && asks == Wakes(c, s, wake1, due1, reevaluate, c.agvIds[n])
    requires forall v :: v != c.agvIds[n] ==> (v in wake2 <==> v in wake1) && (v in wake2 ==> wake2[v] == wake1[v])
    requires forall v :: v != c.agvIds[n] ==> (v in due2 <==> v in due1) && (v in due2 ==> due2[v] == due1[v])
    ensures Unseen(c, wake2, wake, n + 1) && Unseen(c, due2, due, n + 1)
    ensures Found(c, s, wake, due, reevaluate, if asks then active + [c.agvIds[n]] else active, n + 1)
  {
    hide Inv, WellFormed, Owners;
    var v := c.agvIds[n];
    assert asks == Wakes(c, s, wake, due, reevaluate, v);
    forall k | n + 1 <= k < |c.agvIds| ensures c.agvIds[k] != v { NoDupIndex(c.agvIds, n, k); }
    assert c.agvIds[..n + 1] == c.agvIds[..n] + [v];
    if asks {
      assert v !in active by {
        forall k | 0 <= k < n ensures c.agvIds[k] != v { NoDupIndex(c.agvIds, k, n); }
      }
      NoDupAppend(active, v);
    }
  }

  lemma FoundAll(c: Scenario, s: State, wake: Wakings, due: map<AgvId, int>, reevaluate: int, active: seq<AgvId>)
    requires WellFormed(c) && Inv(c, s) && Found(c, s, wake, due, reevaluate, active, |c.agvIds|) && SetOf(c.agvIds) == s.agvs.Keys
    ensures NoDup(active) && forall v :: v in active <==> v in s.agvs && Wakes(c, s, wake, due, reevaluate, v)
  {
    hide Inv, WellFormed, Wakes;
    assert c.agvIds[..|c.agvIds|] == c.agvIds;
    assert forall v :: v in s.agvs <==> v in SetOf(c.agvIds);
  }

  lemma NoneHead(c: Scenario, s: State)
    requires WellFormed(c) && Shaped(c, s)
    ensures HeadWell(c, s, 0) && Busy(c, s, 0)
  {
  }

  lemma NoneBusy(c: Scenario, s: State)
    requires WellFormed(c) && Shaped(c, s)
    ensures Busy(c, s, 0)
  {
  }

  lemma MachineDistinct(c: Scenario, i: nat)
    requires WellFormed(c) && i < |c.machineIds|
    ensures c.machineIds[i] !in SetOf(c.machineIds[..i]) && SetOf(c.machineIds[..i + 1]) == SetOf(c.machineIds[..i]) + {c.machineIds[i]}
  {
    forall k | 0 <= k < i ensures c.machineIds[k] != c.machineIds[i] { NoDupIndex(c.machineIds, k, i); }
    assert c.machineIds[..i + 1] == c.machineIds[..i] + [c.machineIds[i]];
  }

  lemma ShopItself(s: State)
    ensures Phases.OnlyShop(s, s)
  {
  }

  lemma ShopOnce(c: Scenario, s: State, u: State, t: State, m: MachineId, j: JobId, mode: ModeId)
    requires Phases.OnlyShop(s, u) && Durations.Begun(c, u, t, m, j, mode)
    ensures Phases.OnlyShop(s, t)
  {
    hide Durations.Takes;
  }

  lemma ManChoice(c: Scenario, s: State, u: State, t: State, done: set<MachineId>, m: MachineId, j: JobId, mode: ModeId)
    requires WellFormed(c) && Inv(c, s) && Stable(c, u) && Shaped(c, u) && Phases.MannedBy(c, s, u, done) && m !in done && m in c.machines
    requires Startable(c, u, m, j, mode) && Durations.Begun(c, u, t, m, j, mode)
    ensures Phases.MannedBy(c, s, t, done + {m})
  {
    Phases.CouldRunMeans(c, u, m, j, mode);
    MachineThere(c, s, m);
    hide WellFormed, Inv, Phases.MannedBy, Phases.CouldRun, Durations.Begun, Startable, Shaped;
    Phases.ManOne(c, s, u, t, done, m, j, mode);
  }

  lemma MachineThere(c: Scenario, s: State, m: MachineId)
    requires WellFormed(c) && Inv(c, s) && m in c.machines
    ensures m in s.machines
  {
  }

  lemma ManNobody(c: Scenario, s: State, u: State, done: set<MachineId>, m: MachineId)
    requires WellFormed(c) && Inv(c, s) && Stable(c, u) && Shaped(c, u) && Phases.MannedBy(c, s, u, done) && m !in done && m in c.machines
    requires Choices(c, u, m) == {}
    ensures Phases.MannedBy(c, s, u, done + {m})
  {
    hide WellFormed, Inv, Phases.MannedBy, Phases.CouldRun, Startable, Shaped, Choices, Calm, DueReleased;
    MachineThere(c, s, m);
    NothingToRun(c, u, m);
    Phases.ManNone(c, s, u, done, m);
  }

  lemma NothingToRun(c: Scenario, u: State, m: MachineId)
    requires WellFormed(c) && Stable(c, u) && Shaped(c, u) && m in c.machines && Choices(c, u, m) == {}
    ensures !Phases.HasChoice(c, u, m)
  {
    hide WellFormed, Inv, Shaped, Startable, Phases.CouldRun;
    forall j, mode ensures !Phases.CouldRun(c, u, m, j, mode) {
      Phases.CouldRunMeans(c, u, m, j, mode);
      if Startable(c, u, m, j, mode) { ChoiceListed(c, u, m, j, mode); }
    }
  }

  lemma ChoiceListed(c: Scenario, u: State, m: MachineId, j: JobId, mode: ModeId)
    requires WellFormed(c) && Shaped(c, u) && m in c.machines && Startable(c, u, m, j, mode)
    ensures (j, mode) in Choices(c, u, m)
  {
  }

  lemma AllManned(c: Scenario, s: State, t: State)
    requires WellFormed(c) && Inv(c, s) && Phases.MannedBy(c, s, t, SetOf(c.machineIds[..|c.machineIds|]))
    ensures Phases.Manned(c, s, t)
  {
    assert c.machineIds[..|c.machineIds|] == c.machineIds && SetOf(c.machineIds) == s.machines.Keys;
    hide Phases.MannedBy;
  }

  lemma KeepHeads(c: Scenario, s: State, n: nat)
    requires WellFormed(c) && Shaped(c, s) && n < |c.agvIds| && HeadWell(c, s, n) && c.agvIds[n] in s.agvs
    requires s.agvs[c.agvIds[n]].target.Some? ==>
               s.agvs[c.agvIds[n]].target.value in c.buffers && Eligible(c, s, s.agvs[c.agvIds[n]].target.value)
    ensures HeadWell(c, s, n + 1)
  {
    forall i | 0 <= i < n + 1 ensures HeadsWell(c, s, c.agvIds[i]) {
      if i < n { assert HeadsWell(c, s, c.agvIds[i]); }
    }
  }

  lemma KeepBusy(c: Scenario, s: State, n: nat)
    requires WellFormed(c) && Shaped(c, s) && n < |c.machineIds| && Busy(c, s, n) && c.machineIds[n] in c.machines
    requires Choices(c, s, c.machineIds[n]) == {}
    ensures Busy(c, s, n + 1)
  {
    forall i | 0 <= i < n + 1 && c.machineIds[i] in c.machines ensures Choices(c, s, c.machineIds[i]) == {} {
      if i < n { assert Choices(c, s, c.machineIds[i]) == {}; }
    }
  }

  lemma ChoiceStarts(c: Scenario, s: State, m: MachineId, choice: (JobId, ModeId))
    requires WellFormed(c) && Shaped(c, s) && m in c.machines && choice in Choices(c, s, m)
    ensures Startable(c, s, m, choice.0, choice.1)
  {
  }
}
