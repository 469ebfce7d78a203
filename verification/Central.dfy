/** Zero-time decisions of the centralized controller: tasks are chosen one by one until the policy
    advances, then vehicles at their ports start their services. */
module Central {
  import opened Collections
  import opened Factory
  import opened Custody
  import opened Safety
  import opened Operations
  import opened Settling
  import opened Reservations
  import opened Physics
  import opened Stepping
  import opened Checks
  import opened Runs
  import opened TimeJump
  import opened Negotiation
  import Engine
  import Phases
  import ServiceTick
  import Durations

  datatype Task = Process(m: MachineId, j: JobId, mode: ModeId) | Carry(v: AgvId, j: JobId, b: BufferId) | Advancing

  /** What `choose` makes of the policy's answer. */
  datatype Answer = Chosen | Stopped | Illegal

  /** Membership in `candidates`. */
  predicate Offered(c: Scenario, s: State, task: Task)
    requires WellFormed(c) && Inv(c, s)
  {
    match task
    case Process(m, j, mode) => Startable(c, s, m, j, mode) && forall v :: v in s.assignments ==> s.assignments[v].job != j
    case Carry(v, j, b) => Transport(c, s, v, j, b)
    case Advancing => true
  }

  /** The offer in terms of calendar, flow and free capacity: what a machine could run of the jobs nobody is
      assigned to, and what a vehicle may carry. */
  ghost predicate MayTake(c: Scenario, s: State, task: Task)
    requires WellFormed(c)
  {
    match task
    case Process(m, j, mode) => Phases.CouldRun(c, s, m, j, mode) && Phases.Unreserved(s, j)
    case Carry(v, j, b) => Phases.MayCarry(c, s, v, j, b)
    case Advancing => true
  }

  /** What a task does. */
  ghost predicate Takes(c: Scenario, s: State, t: State, task: Task) {
    match task
    case Process(m, j, mode) => Durations.Begun(c, s, t, m, j, mode)
    case Carry(v, j, b) => Phases.Given(s, t, v, j, b)
    case Advancing => t == s
  }

  lemma OfferedMeans(c: Scenario, s: State, task: Task)
    requires WellFormed(c) && Stable(c, s) && Shaped(c, s)
    ensures Offered(c, s, task) <==> MayTake(c, s, task)
  {
    hide WellFormed, Inv, Shaped, DueReleased, Startable, Transport, Phases.CouldRun, Phases.MayCarry;
    match task
    case Process(m, j, mode) => Phases.CouldRunMeans(c, s, m, j, mode);
    case Carry(v, j, b) => Phases.MayCarryMeans(c, s, v, j, b);
    case Advancing =>
  }

  /** The policy answers with one of the offered tasks, whatever happened so far: the state holds the
      whole event log. */
  ghost predicate LegalPolicy(c: Scenario, policy: State -> Task) {
    forall s {:trigger AnswersAt(c, policy, s)} :: AnswersAt(c, policy, s)
  }

  ghost predicate AnswersAt(c: Scenario, policy: State -> Task, s: State) {
    WellFormed(c) && Inv(c, s) ==> Offered(c, s, policy(s))
  }

  function DecisionOf(task: Task): Decision
    requires !task.Advancing?
  {
    match task
    case Process(m, j, mode) => StartJob(m, j, mode)
    case Carry(v, j, b) => AssignTask(v, j, b)
  }

  ghost function Untasked(s: State): set<AgvId> {
    set v | v in s.agvs && v !in s.assignments
  }

  ghost function Resting(s: State): set<MachineId> {
    set m | m in s.machines && !s.machines[m].status.Processing?
  }

  /** Vehicles without a task and machines that are not processing. */
  ghost function Freedom(s: State): nat {
    |Untasked(s)| + |Resting(s)|
  }

  lemma OfferedDecides(c: Scenario, s: State, run: seq<Decision>, u: State, task: Task)
    requires Decides(c, s, run, u) && WellFormed(c) && Inv(c, u) && Offered(c, u, task) && !task.Advancing? && c.central
    ensures Stable(c, u) && Enabled(c, u, DecisionOf(task))
    ensures Decides(c, s, run + [DecisionOf(task)], Apply(c, u, DecisionOf(task)))
  {
    hide Inv, Calm, DueReleased, Leads, Apply;
    DecidesMore(c, s, run, u, DecisionOf(task));
  }

  lemma ChoiceFrees(c: Scenario, u: State, task: Task)
    requires WellFormed(c) && Stable(c, u) && !task.Advancing? && Enabled(c, u, DecisionOf(task)) && Inv(c, u) && Offered(c, u, task)
    ensures Freedom(Apply(c, u, DecisionOf(task))) < Freedom(u)
  {
    var t := Apply(c, u, DecisionOf(task));
    match task
    case Process(m, j, mode) =>
      StartFrees(c, u, m, j, mode);
    case Carry(v, j, b) =>
      AssignFrees(c, u, v, j, b);
  }

  lemma StartFrees(c: Scenario, u: State, m: MachineId, j: JobId, mode: ModeId)
    requires WellFormed(c) && Shaped(c, u) && Startable(c, u, m, j, mode)
    ensures Freedom(Start(c, u, m, j, mode)) < Freedom(u)
  {
    var t := Start(c, u, m, j, mode);
    assert Untasked(t) == Untasked(u) && Resting(t) == Resting(u) - {m} && m in Resting(u);
  }

  lemma AssignFrees(c: Scenario, u: State, v: AgvId, j: JobId, b: BufferId)
    requires v in u.agvs && v !in u.assignments && j in u.jobs && (u.agvs[v].job.None? ==> u.jobs[j].loc.Stored?)
    ensures Freedom(Assign(c, u, v, j, b)) < Freedom(u)
  {
    var t := Assign(c, u, v, j, b);
    assert Untasked(t) == Untasked(u) - {v} && v in Untasked(u) && Resting(t) == Resting(u);
  }

  class CentralControl {
    const core: Engine.Simulator
    /** History: where this decision phase began and what was decided since. */
    ghost var origin: State
    ghost var run: seq<Decision>

    ghost predicate Valid()
      reads this, core
    {
      core.c.central && Decides(core.c, origin, run, core.View())
    }

    constructor (simulator: Engine.Simulator)
      requires WellFormed(simulator.c) && Stable(simulator.c, simulator.View()) && simulator.c.central
      ensures Valid() && core == simulator && origin == core.View() && run == []
    {
      core := simulator;
      origin, run := simulator.View(), [];
      DecidesNothing(simulator.c, simulator.View());
    }

    lemma Opened()
      requires Valid()
      ensures core.c.central && Decides(core.c, origin, run, core.View())
      ensures var c, t := core.c, core.View();
              && WellFormed(c) && Stable(c, t) && Inv(c, t) && Shaped(c, t) && NoDup(c.agvIds)
              && SetOf(c.agvIds) == core.agvs.Keys && core.idleSince.Keys <= core.agvs.Keys
              && t.agvs == core.agvs && t.jobs == core.jobs && t.machines == core.machines && t.storage == core.storage
              && t.assignments == core.assignments && t.tick == core.tick
    {
      DecidesParts(core.c, origin, run, core.View());
    }

    /** A phase that has not begun is where it started. */
    lemma NothingYet()
      requires Valid() && run == []
      ensures origin == core.View()
    {
      assert Leads(core.c, origin, [], core.View());
    }

    lemma Closed()
      requires core.c.central && Decides(core.c, origin, run, core.View())
      ensures Valid()
    {
    }

    /** `choose`: performs an offered task, refuses any other, and stops when the policy advances. */
    method Choose(task: Task) returns (answer: Answer)
      requires Valid() && WellFormed(core.c) && Inv(core.c, core.View())
      modifies core`machines, core`storage, core`jobs, core`agvs, core`assignments, core`log, `run
      ensures Valid() && WellFormed(core.c) && Inv(core.c, core.View()) && CheckReservations(core.c, core.View())
      ensures answer.Illegal? <==> !Offered(core.c, old(core.View()), task)
      ensures answer.Stopped? <==> task.Advancing?
      ensures !answer.Chosen? ==> core.View() == old(core.View()) && run == old(run)
      ensures answer.Chosen? ==> Freedom(core.View()) < Freedom(old(core.View())) && run == old(run) + [DecisionOf(task)]
      ensures answer.Illegal? <==> !MayTake(core.c, old(core.View()), task)
      ensures answer.Chosen? ==> Takes(core.c, old(core.View()), core.View(), task)
    {
      hide *;
      Opened();
      ghost var u := core.View();
      OfferedMeans(core.c, u, task);
      ChecksHold(core.c, u);
      AdvanceOffered(core.c, u, task);
      if !Offered(core.c, core.View(), task) { return Illegal; }
      if task.Advancing? { return Stopped; }
      OfferedDecides(core.c, origin, run, u, task);
      ChoiceFrees(core.c, u, task);
      Perform(task);
      run := run + [DecisionOf(task)];
      Closed();
      Opened();
      ChecksHold(core.c, core.View());
      answer := Chosen;
    }

    method Perform(task: Task)
      requires WellFormed(core.c) && Stable(core.c, core.View()) && !task.Advancing? && Enabled(core.c, core.View(), DecisionOf(task))
      modifies core`machines, core`storage, core`jobs, core`agvs, core`assignments, core`log
      ensures core.View() == Apply(core.c, old(core.View()), DecisionOf(task))
      ensures Takes(core.c, old(core.View()), core.View(), task)
    {
      TaskParts(core.c, core.View(), task);
      ghost var s := core.View();
      hide *;
      core.Fields();
      match task
      case Process(m, j, mode) =>
        core.Start(m, j, mode);
        TookProcess(core.c, s, core.View(), m, j, mode);
      case Carry(v, j, b) =>
        Phases.AssignGives(core.c, s, v, j, b);
        core.AssignTask(v, j, b);
        TookCarry(core.c, s, core.View(), v, j, b);
    }

    /** Tasks are chosen until the policy advances or answers illegally; that always happens. */
    method ChooseTasks(policy: State -> Task) returns (legal: bool)
      requires Valid()
      modifies core`machines, core`storage, core`jobs, core`agvs, core`assignments, core`log, `run
      ensures Valid() && WellFormed(core.c) && Inv(core.c, core.View()) && CheckReservations(core.c, core.View())
      ensures LegalPolicy(core.c, policy) ==> legal
      ensures forall s: State {:trigger Phases.TasksKept(core.c, s, core.View())} ::
                Phases.TasksKept(core.c, s, old(core.View())) ==> Phases.TasksKept(core.c, s, core.View())
    {
      hide *;
      Opened();
      ChecksHold(core.c, core.View());
      var answer := Chosen;
      while answer.Chosen?
        invariant Valid() && WellFormed(core.c) && Inv(core.c, core.View()) && CheckReservations(core.c, core.View())
        invariant LegalPolicy(core.c, policy) ==> !answer.Illegal?
        invariant forall s: State {:trigger Phases.TasksKept(core.c, s, core.View())} ::
                    Phases.TasksKept(core.c, s, old(core.View())) ==> Phases.TasksKept(core.c, s, core.View())
        decreases Freedom(core.View()), answer.Chosen?
      {
        ghost var u := core.View();
        PolicyOffers(core.c, policy, u);
        answer := Choose(policy(core.View()));
        if answer.Chosen? { TakesKeeps(core.c, u, core.View(), policy(u)); }
      }
      legal := answer.Stopped?;
    }

    method ServeOne(v: AgvId, kind: Kind, j: JobId, p: Place)
      requires Valid() && Servable(core.c, core.View(), v, kind, j, p) && v in core.agvs
      modifies core`agvs, core`log, `run
      ensures Valid() && core.View() == Serve(old(core.View()), v, kind, j, p)
    {
      hide *;
      ghost var u := core.View();
      Opened();
      core.StartService(v, kind, j, p);
      ServeDecides(core.c, origin, run, u, v, kind, j, p);
      run := run + [BeginService(v, kind, j, p)];
      Closed();
    }

    /** One task of `start_services`. */
    method ServeTask(v: AgvId)
      requires Valid() && WellFormed(core.c) && Inv(core.c, core.View()) && AllFirm(core.c, core.View()) && v in core.agvs
      modifies core`agvs, core`log, `run
      ensures Valid() && WellFormed(core.c) && Inv(core.c, core.View()) && AllFirm(core.c, core.View())
      ensures TaskServed(core.c, core.View(), v)
      ensures core.agvs.Keys == old(core.agvs).Keys
      ensures forall w :: w in core.agvs && TaskServed(core.c, old(core.View()), w) ==> TaskServed(core.c, core.View(), w)
      ensures Phases.Began(core.c, old(core.View()), core.View())
    {
      hide *;
      Opened();
      var c := core.c;
      ghost var u := core.View();
      Phases.NothingBegan(c, u);
      NotServing(c, u, v);
      if v !in core.assignments || core.agvs[v].service.Some? || core.agvs[v].target.None? { return; }
      var owner, task := core.agvs[v].target.value, core.assignments[v];
      TaskKnown(c, u, v);
      if core.agvs[v].cell !in c.ports[owner] { return; }
      if core.agvs[v].job.Some? {
        var slot := Engine.FreeDrop(c, core.View(), owner, c.buffers[owner].declared);
        if slot.None? { return; }
        TaskDelivery(c, u, v, owner, slot.value);
        ServeOne(v, DropOff, task.job, Place(owner, slot.value));
        Opened();
        TaskStarts(c, u, v, DropOff, task.job, Place(owner, slot.value));
        TaskBegan(c, u, u, v, DropOff, task.job, Place(owner, slot.value));
      } else {
        if task.job !in Engine.ReadyJobs(core.View(), owner) { return; }
        TaskPickup(c, u, v, owner);
        var p := core.jobs[task.job].loc.place;
        ServeOne(v, Pickup, task.job, p);
        Opened();
        TaskStarts(c, u, v, Pickup, task.job, p);
        TaskBegan(c, u, u, v, Pickup, task.job, p);
      }
    }

    /** `start_services` */
    method StartServices()
      requires Valid()
      modifies core`agvs, core`assignments, core`idleSince, core`log, `run
      ensures Valid() && WellFormed(core.c) && Inv(core.c, core.View()) && AllFirm(core.c, core.View())
      ensures forall v :: v in core.agvs ==> TaskServed(core.c, core.View(), v)
      ensures forall v :: v in core.agvs ==> Phases.TaskOut(core.c, core.View(), v)
      ensures forall s: State {:trigger Phases.TasksKept(core.c, s, core.View())} ::
                Phases.TasksKept(core.c, s, old(core.View())) ==> Phases.TasksKept(core.c, s, core.View())
    {
      hide *;
      ghost var s0 := core.View();
      Opened();
      Reconcile();
      Opened();
      var c := core.c;
      ghost var s := core.View();
      Phases.NothingBegan(c, s);
      for i := 0 to |c.agvIds|
        invariant Valid() && WellFormed(c) && Inv(c, core.View()) && Shaped(c, core.View()) && AllFirm(c, core.View())
        invariant Phases.Began(c, s, core.View())
        invariant forall k :: 0 <= k < i && c.agvIds[k] in core.agvs ==> TaskServed(c, core.View(), c.agvIds[k])
      {
        Opened();
        assert c.agvIds[i] in SetOf(c.agvIds);
        ghost var u := core.View();
        ServeTask(c.agvIds[i]);
        Opened();
        BeganOn(c, s, u, core.View());
      }
      Opened();
      ServicesKeep(c, s0, s, core.View());
      forall v | v in core.agvs ensures TaskServed(c, core.View(), v) {
        assert v in SetOf(c.agvIds);
        ghost var k :| 0 <= k < |c.agvIds| && c.agvIds[k] == v;
      }
      forall v | v in core.agvs ensures Phases.TaskOut(c, core.View(), v) { ServedMeans(c, core.View(), v); }
    }

    /** `decisions` under the centralized controller. */
    method Decide(policy: State -> Task) returns (legal: bool)
      requires Valid()
      modifies core`machines, core`storage, core`jobs, core`agvs, core`assignments, core`idleSince, core`log, `run
      ensures Valid() && origin == old(origin) && WellFormed(core.c) && Stable(core.c, core.View())
      ensures CheckReservations(core.c, core.View())
      ensures LegalPolicy(core.c, policy) ==> legal
      ensures legal ==> (Done(core.c, core.View()) || Decided(core.c, core.View()))
                        && forall v :: v in core.agvs ==> TaskServed(core.c, core.View(), v)
      ensures Phases.TasksKept(core.c, old(core.View()), core.View())
      ensures legal ==> forall v :: v in core.agvs ==> Phases.TaskOut(core.c, core.View(), v)
    {
      hide *;
      ghost var s := core.View();
      Opened();
      Reconcile();
      Phases.TaskedFirst(core.c, s, core.View(), SetOf(core.c.agvIds));
      legal := ChooseTasks(policy);
      if legal { StartServices(); }
      Opened();
      ChecksHold(core.c, core.View());
      FirmIsDecided(core.c, core.View());
    }

    /** A new phase begins where the last interval ended. */
    method Restart()
      requires WellFormed(core.c) && Stable(core.c, core.View()) && core.c.central
      modifies `origin, `run
      ensures Valid() && origin == core.View() && run == []
    {
      origin, run := core.View(), [];
      DecidesNothing(core.c, core.View());
    }

    method Reconcile()
      requires Valid()
      modifies core`agvs, core`assignments, core`idleSince, core`log, `run
      ensures Valid() && WellFormed(core.c) && Inv(core.c, core.View()) && AllFirm(core.c, core.View())
      ensures ServiceTick.Tasked(core.c, old(core.View()), core.View(), SetOf(core.c.agvIds))
    {
      hide *;
      Opened();
      ghost var u := core.View();
      ServiceTick.ReconcilePhase(core.c, u);
      core.ReconcileTasks();
      ReconcileDecides(core.c, origin, run, u);
      run := run + [ReconcileAll];
      Closed();
    }
  }

  lemma TookProcess(c: Scenario, s: State, t: State, m: MachineId, j: JobId, mode: ModeId)
    requires Durations.Begun(c, s, t, m, j, mode)
    ensures Takes(c, s, t, Process(m, j, mode))
  {
  }

  lemma TookCarry(c: Scenario, s: State, t: State, v: AgvId, j: JobId, b: BufferId)
    requires Phases.Given(s, t, v, j, b)
    ensures Takes(c, s, t, Carry(v, j, b))
  {
  }

  /** New tasks leave the others alone. */
  lemma TakesKeeps(c: Scenario, u: State, t: State, task: Task)
    requires WellFormed(c) && Takes(c, u, t, task) && MayTake(c, u, task)
    ensures forall s {:trigger Phases.TasksKept(c, s, t)} :: Phases.TasksKept(c, s, u) ==> Phases.TasksKept(c, s, t)
  {
    hide WellFormed, Phases.TasksKept, Durations.Begun, Phases.Given, Phases.CouldRun;
    forall s | Phases.TasksKept(c, s, u) ensures Phases.TasksKept(c, s, t) {
      match task
      case Process(m, j, mode) => Phases.BegunKeeps(c, s, u, t, m, j, mode);
      case Carry(v, j, b) => Phases.GivenKeeps(c, s, u, t, v, j, b);
      case Advancing =>
    }
  }

  lemma PolicyOffers(c: Scenario, policy: State -> Task, s: State)
    requires WellFormed(c) && Inv(c, s)
    ensures LegalPolicy(c, policy) ==> Offered(c, s, policy(s))
  {
    hide Offered, Inv;
    assert LegalPolicy(c, policy) ==> AnswersAt(c, policy, s);
  }

  lemma ChecksHold(c: Scenario, s: State)
    requires WellFormed(c) && Stable(c, s)
    ensures CheckReservations(c, s)
  {
    hide Inv, CheckReservations;
    ReservationsNeverFail(c, s);
  }

  lemma AdvanceOffered(c: Scenario, s: State, task: Task)
    requires WellFormed(c) && Inv(c, s)
    ensures task.Advancing? ==> Offered(c, s, task)
  {
  }

  lemma TaskParts(c: Scenario, s: State, task: Task)
    requires WellFormed(c) && Stable(c, s) && !task.Advancing? && Enabled(c, s, DecisionOf(task))
    ensures Inv(c, s)
    ensures match task
            case Process(m, j, mode) => Startable(c, s, m, j, mode) && Apply(c, s, DecisionOf(task)) == Start(c, s, m, j, mode)
            case Carry(v, j, b) =>
              && v in s.agvs && j in s.jobs && (s.agvs[v].job.None? ==> s.jobs[j].loc.Stored?)
              && Apply(c, s, DecisionOf(task)) == Assign(c, s, v, j, b)
            case Advancing => true
  {
    hide Calm, DueReleased;
  }

  lemma ReconcileDecides(c: Scenario, s: State, run: seq<Decision>, u: State)
    requires Decides(c, s, run, u) && WellFormed(c) && Inv(c, u) && c.central
    ensures Decides(c, s, run + [ReconcileAll], ReconcileTasks(c, u))
    ensures Inv(c, ReconcileTasks(c, u)) && AllFirm(c, ReconcileTasks(c, u))
  {
    hide Inv, Calm, DueReleased, Leads;
    DecidesMore(c, s, run, u, ReconcileAll);
  }

  // -- services of tasks -----------------------------------------------------------------------

  /** The vehicle's task, if any, is being served unless it is not at its port or nothing can be served. */
  ghost predicate TaskServed(c: Scenario, s: State, v: AgvId) {
    v in s.agvs && v in s.assignments && s.agvs[v].service.None? && s.agvs[v].target.Some? ==>
      var owner := s.agvs[v].target.value;
      || owner !in c.ports || owner !in c.buffers || s.agvs[v].cell !in c.ports[owner]
      || if s.agvs[v].job.Some? then Engine.FreeDrop(c, s, owner, c.buffers[owner].declared).None?
         else s.assignments[v].job !in Engine.ReadyJobs(s, owner)
  }

  lemma TaskBegan(c: Scenario, s: State, u: State, v: AgvId, kind: Kind, j: JobId, p: Place)
    requires Phases.Began(c, s, u) && v in u.agvs && Servable(c, u, v, kind, j, p)
    ensures Phases.Began(c, s, Serve(u, v, kind, j, p))
  {
    assert u.agvs.Keys == s.agvs.Keys;
    hide Phases.Began, Servable, Serve;
    ServableFits(c, u, v, kind, j, p);
    Phases.OneBegan(c, s, u, v, kind, j, p);
  }

  lemma BeganOn(c: Scenario, s: State, u: State, t: State)
    requires Phases.Began(c, s, u) && Phases.Began(c, u, t)
    ensures Phases.Began(c, s, t)
  {
    hide Phases.Fits;
    forall v | v in s.agvs ensures Phases.RowBegan(c, s, t, v) {
      assert Phases.RowBegan(c, s, u, v) && Phases.RowBegan(c, u, t, v);
      if t.agvs[v] != u.agvs[v] {
        var x :| Phases.Fits(c, u, v, x) && t.agvs[v] == u.agvs[v].(service := Some(x));
        FitsAlone(c, s, u, v, x);
      }
    }
  }

  lemma FitsAlone(c: Scenario, s: State, u: State, v: AgvId, x: Service)
    requires Phases.Began(c, s, u) && v in s.agvs && Phases.Fits(c, u, v, x)
    ensures u.agvs[v] == s.agvs[v] && Phases.Fits(c, s, v, x)
  {
    Phases.FitsStill(c, s, u, v, x);
  }

  lemma ServicesKeep(c: Scenario, s0: State, s: State, t: State)
    requires WellFormed(c) && ServiceTick.Tasked(c, s0, s, SetOf(c.agvIds)) && SetOf(c.agvIds) == t.agvs.Keys && Phases.Began(c, s, t)
    ensures forall x {:trigger Phases.TasksKept(c, x, t)} :: Phases.TasksKept(c, x, s0) ==> Phases.TasksKept(c, x, t)
  {
    assert s0.agvs.Keys == s.agvs.Keys == t.agvs.Keys;
    hide WellFormed, Phases.TasksKept, ServiceTick.Tasked, Phases.Began;
    forall x | Phases.TasksKept(c, x, s0) ensures Phases.TasksKept(c, x, t) {
      Phases.TaskedKeeps(c, x, s0, s, SetOf(c.agvIds));
      Phases.BeganKeeps(c, x, s, t);
    }
  }

  lemma ServedMeans(c: Scenario, s: State, v: AgvId)
    requires WellFormed(c) && Inv(c, s) && TaskServed(c, s, v) && v in s.agvs
    ensures Phases.TaskOut(c, s, v)
  {
    if v in s.assignments && Phases.AtPort(c, s, v) {
      Engine.Listed(c, s);
      Engine.TargetBuffer(c, s, v);
      Engine.FreeDropMeans(c, s, s.agvs[v].target.value);
      Engine.ReadyMeans(s, s.agvs[v].target.value, s.assignments[v].job);
    }
    hide WellFormed, Inv, Phases.Available, Phases.RoomAt, Engine.FreeDrop, Engine.ReadyJobs;
  }

  lemma NotServing(c: Scenario, s: State, v: AgvId)
    requires v in s.agvs
    ensures v !in s.assignments || s.agvs[v].service.Some? || s.agvs[v].target.None? ==> TaskServed(c, s, v)
    ensures v in s.assignments && s.agvs[v].target.Some? ==>
              var owner := s.agvs[v].target.value;
              && (owner in c.ports && s.agvs[v].cell !in c.ports[owner] ==> TaskServed(c, s, v))
              && (owner in c.buffers && s.agvs[v].job.Some? && Engine.FreeDrop(c, s, owner, c.buffers[owner].declared).None? ==> TaskServed(c, s, v))
              && (s.agvs[v].job.None? && s.assignments[v].job !in Engine.ReadyJobs(s, owner) ==> TaskServed(c, s, v))
  {
  }

  lemma TaskKnown(c: Scenario, s: State, v: AgvId)
    requires WellFormed(c) && Inv(c, s) && v in s.agvs && v in s.assignments && s.agvs[v].target.Some?
    ensures var owner := s.agvs[v].target.value;
            && owner in c.buffers && owner in c.ports
            && (s.agvs[v].job.Some? ==> s.agvs[v].job.value == s.assignments[v].job)
  {
    TargetKnown(c, s, v);
    assert AssignmentOk(c, s.jobs, s.agvs[v], s.assignments[v]) && GoodBuffer(c, s.agvs[v].target.value);
  }

  lemma TaskDelivery(c: Scenario, s: State, v: AgvId, owner: BufferId, slot: SlotId)
    requires WellFormed(c) && Inv(c, s) && v in s.agvs && v in s.assignments && s.agvs[v].service.None? && s.agvs[v].job.Some?
    requires s.agvs[v].target == Some(owner) && owner in c.ports && s.agvs[v].cell in c.ports[owner]
    requires Engine.DropRoom(c, s, Place(owner, slot))
    ensures Servable(c, s, v, DropOff, s.assignments[v].job, Place(owner, slot))
  {
    assert AssignmentOk(c, s.jobs, s.agvs[v], s.assignments[v]) && KnownPlace(c, Place(owner, slot));
    UnloadingCount(s, Place(owner, slot), c.agvIds);
    assert forall w :: w in c.agvIds <==> w in SetOf(c.agvIds);
    assert Unloaders(s, Place(owner, slot), c.agvIds) == Locked(s.agvs, Place(owner, slot));
  }

  lemma TaskPickup(c: Scenario, s: State, v: AgvId, owner: BufferId)
    requires WellFormed(c) && Inv(c, s) && v in s.agvs && v in s.assignments && s.agvs[v].service.None? && s.agvs[v].job.None?
    requires s.agvs[v].target == Some(owner) && owner in c.ports && s.agvs[v].cell in c.ports[owner]
    requires s.assignments[v].job in Engine.ReadyJobs(s, owner)
    ensures s.assignments[v].job in s.jobs && s.jobs[s.assignments[v].job].loc.Stored?
    ensures Servable(c, s, v, Pickup, s.assignments[v].job, s.jobs[s.assignments[v].job].loc.place)
  {
    var j := s.assignments[v].job;
    assert Located(s.jobs, s.queue, s.storage, s.machines, s.agvs, j) && KnownPlace(c, s.jobs[j].loc.place);
  }

  /** Starting one task's service keeps every assignment firm and every served task served. */
  lemma TaskStarts(c: Scenario, u: State, v: AgvId, kind: Kind, j: JobId, p: Place)
    requires WellFormed(c) && Inv(c, u) && v in u.agvs && Inv(c, Serve(u, v, kind, j, p)) && AllFirm(c, u)
    requires kind.Pickup? ==> u.agvs[v].job.None?
    requires u.agvs[v].target == Some(p.owner) && u.agvs[v].service.None?
    ensures AllFirm(c, Serve(u, v, kind, j, p))
    ensures forall w :: w in u.agvs && TaskServed(c, u, w) ==> TaskServed(c, Serve(u, v, kind, j, p), w)
    ensures TaskServed(c, Serve(u, v, kind, j, p), v)
  {
    var t := Serve(u, v, kind, j, p);
    forall i | 0 <= i < |c.agvIds| ensures Firm(c, t, c.agvIds[i]) { assert Firm(c, u, c.agvIds[i]); }
    forall w | w in u.agvs && TaskServed(c, u, w) ensures TaskServed(c, t, w) {
      if w != v { ServedTask(c, u, t, v, kind, j, p, w); }
    }
  }

  lemma ServedTask(c: Scenario, u: State, t: State, v: AgvId, kind: Kind, j: JobId, p: Place, w: AgvId)
    requires v in u.agvs && u.agvs[v].service.None? && t == Serve(u, v, kind, j, p) && w in u.agvs && w != v && TaskServed(c, u, w)
    ensures TaskServed(c, t, w)
  {
    if w in u.assignments && u.agvs[w].service.None? && u.agvs[w].target.Some? {
      var owner := u.agvs[w].target.value;
      assert Engine.ReadyJobs(t, owner) <= Engine.ReadyJobs(u, owner) by {
        forall i | i in Engine.ReadyJobs(t, owner) ensures i in Engine.ReadyJobs(u, owner) {
          forall x | x in u.agvs ensures !Loading(u.agvs[x], i) { assert !Loading(t.agvs[x], i); }
        }
      }
      forall k ensures Engine.DropRoom(c, t, Place(owner, k)) ==> Engine.DropRoom(c, u, Place(owner, k)) {
        UnloadingGrows(u, t, Place(owner, k), c.agvIds);
      }
    }
  }

  lemma {:induction false} UnloadingGrows(s: State, t: State, p: Place, ids: seq<AgvId>)
    requires t.agvs.Keys == s.agvs.Keys && forall w :: w in s.agvs && Locks(s.agvs[w], p) ==> Locks(t.agvs[w], p)
    ensures Unloading(s, p, ids) <= Unloading(t, p, ids)
  {
    if ids != [] { UnloadingGrows(s, t, p, ids[1..]); }
  }

  lemma FirmIsDecided(c: Scenario, s: State)
    requires WellFormed(c) && Stable(c, s) && Inv(c, s)
    ensures AllFirm(c, s) ==> Done(c, s) || Decided(c, s)
  {
  }
}
