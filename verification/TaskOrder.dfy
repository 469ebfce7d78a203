/** The order in which assignments are visited is that of a dictionary: over every run a new task comes
    last, and tasks that end leave the order of the others alone. */
module TaskOrder {
  import opened Collections
  import opened Availability
  import opened Factory
  import opened Custody
  import opened Safety
  import opened Operations
  import opened Physics
  import opened Stepping
  import opened Runs
  import Preservation
  import Settling

  /** The listed vehicles that have a task. */
  function Entered(q: seq<AgvId>, tasks: map<AgvId, Assignment>): seq<AgvId> {
    if q == [] then [] else (if q[0] in tasks then [q[0]] else []) + Entered(q[1..], tasks)
  }

  /** The keys of `assignments` as they are visited. */
  function KeyOrder(c: Scenario, s: State): seq<AgvId> {
    Entered(Turns(c, s.log), s.assignments)
  }

  /** No task was made and none was given back. */
  ghost predicate NoTaskMade(s: State, t: State) {
    s.log <= t.log && NoneAssigned(t.log, |s.log|) && t.assignments.Keys <= s.assignments.Keys
  }

  ghost predicate NoneAssigned(log: seq<Event>, n: nat) {
    forall i {:trigger log[i]} :: n <= i < |log| ==> !log[i].TaskAssigned?
  }

  // -- lists -----------------------------------------------------------------------------------

  lemma {:induction false} EnteredJoin(p: seq<AgvId>, q: seq<AgvId>, tasks: map<AgvId, Assignment>)
    ensures Entered(p + q, tasks) == Entered(p, tasks) + Entered(q, tasks)
  {
    if p == [] {
      assert p + q == q;
    } else {
      assert (p + q)[0] == p[0] && (p + q)[1..] == p[1..] + q;
      EnteredJoin(p[1..], q, tasks);
    }
  }

  lemma {:induction false} EnteredTwice(q: seq<AgvId>, more: map<AgvId, Assignment>, tasks: map<AgvId, Assignment>)
    requires tasks.Keys <= more.Keys
    ensures Entered(Entered(q, more), tasks) == Entered(q, tasks)
  {
    if q != [] {
      EnteredTwice(q[1..], more, tasks);
      var rest := Entered(q[1..], more);
      if q[0] in more {
        var all := [q[0]] + rest;
        assert all[1..] == rest && Entered(q, more) == all;
      } else {
        assert Entered(q, more) == rest && Entered(q, tasks) == Entered(q[1..], tasks);
      }
    }
  }

  /** Entering `v` does not move the others. */
  lemma {:induction false} EnteredWithout(q: seq<AgvId>, v: AgvId, tasks: map<AgvId, Assignment>, more: map<AgvId, Assignment>)
    requires v !in tasks && more.Keys == tasks.Keys + {v} && NoDup(q)
    ensures Entered(Without(q, v), more) == Entered(q, tasks)
  {
    if q != [] {
      TailDistinct(q);
      if q[0] == v {
        SameEntered(q[1..], v, tasks, more);
      } else {
        assert ([q[0]] + Without(q[1..], v))[1..] == Without(q[1..], v);
        EnteredWithout(q[1..], v, tasks, more);
      }
    }
  }

  lemma TailDistinct(q: seq<AgvId>)
    requires NoDup(q) && q != []
    ensures NoDup(q[1..]) && q[0] !in q[1..]
  {
    assert q == [q[0]] + q[1..];
    forall x ensures multiset(q[1..])[x] <= 1 { assert multiset(q)[x] <= 1; }
    assert multiset(q)[q[0]] <= 1;
  }

  lemma {:induction false} SameEntered(q: seq<AgvId>, v: AgvId, tasks: map<AgvId, Assignment>, more: map<AgvId, Assignment>)
    requires v !in q && more.Keys == tasks.Keys + {v}
    ensures Entered(q, more) == Entered(q, tasks)
  {
    if q != [] { SameEntered(q[1..], v, tasks, more); }
  }

  lemma {:induction false} QuietTurns(ids: seq<AgvId>, log: seq<Event>, n: nat)
    requires n <= |log| && NoneAssigned(log, n)
    ensures Reordered(ids, log) == Reordered(ids, log[..n])
    decreases |log|
  {
    if n < |log| {
      var less := log[..|log| - 1];
      assert forall i :: n <= i < |less| ==> less[i] == log[i];
      QuietTurns(ids, less, n);
      assert less[..n] == log[..n];
    } else {
      assert log[..n] == log;
    }
  }

  // -- the two laws of the dictionary ----------------------------------------------------------

  lemma RemovedLeavesOrder(c: Scenario, s: State, t: State)
    requires NoTaskMade(s, t)
    ensures KeyOrder(c, t) == Entered(KeyOrder(c, s), t.assignments)
  {
    QuietTurns(c.agvIds, t.log, |s.log|);
    assert t.log[..|s.log|] == s.log;
    EnteredTwice(Turns(c, s.log), s.assignments, t.assignments);
  }

  lemma MadeComesLast(c: Scenario, s: State, v: AgvId, j: JobId, b: BufferId)
    requires WellFormed(c) && NoDup(c.agvIds) && v in c.agvIds && v !in s.assignments
    requires v in s.agvs && j in s.jobs && (s.agvs[v].job.None? ==> s.jobs[j].loc.Stored?)
    ensures KeyOrder(c, Assign(c, s, v, j, b)) == KeyOrder(c, s) + [v]
  {
    var t, q := Assign(c, s, v, j, b), Turns(c, s.log);
    AssignFields(c, s, v, j, b);
    hide *;
    NewTurn(c, s.log, TaskAssigned(s.tick, v, j, b));
    NewKey(q, v, s.assignments, t.assignments);
    OrderIs(c, s);
    OrderIs(c, t);
  }

  lemma OrderIs(c: Scenario, s: State)
    ensures KeyOrder(c, s) == Entered(Turns(c, s.log), s.assignments)
  {
  }

  lemma AssignFields(c: Scenario, s: State, v: AgvId, j: JobId, b: BufferId)
    requires WellFormed(c) && v in s.agvs && j in s.jobs && (s.agvs[v].job.None? ==> s.jobs[j].loc.Stored?)
    ensures var t := Assign(c, s, v, j, b);
            t.log == s.log + [TaskAssigned(s.tick, v, j, b)] && t.assignments.Keys == s.assignments.Keys + {v} && NoDup(Turns(c, s.log))
  {
  }

  lemma NewTurn(c: Scenario, log: seq<Event>, e: Event)
    requires NoDup(c.agvIds) && e.TaskAssigned? && e.agv in c.agvIds
    ensures Turns(c, log + [e]) == Without(Turns(c, log), e.agv) + [e.agv]
  {
    assert e.agv in SetOf(c.agvIds) && e.agv in SetOf(Turns(c, log));
    assert (log + [e])[..|log + [e]| - 1] == log;
  }

  lemma NewKey(q: seq<AgvId>, v: AgvId, tasks: map<AgvId, Assignment>, more: map<AgvId, Assignment>)
    requires v !in tasks && more.Keys == tasks.Keys + {v} && NoDup(q)
    ensures Entered(Without(q, v) + [v], more) == Entered(q, tasks) + [v]
  {
    EnteredJoin(Without(q, v), [v], more);
    EnteredWithout(q, v, tasks, more);
    assert Entered([v], more) == [v];
  }

  // -- every step of a run ---------------------------------------------------------------------

  lemma NoTaskMadeOn(s: State, u: State, t: State)
    requires NoTaskMade(s, u) && NoTaskMade(u, t)
    ensures NoTaskMade(s, t)
  {
    forall i | |s.log| <= i < |t.log| ensures !t.log[i].TaskAssigned? {
      if i < |u.log| { assert t.log[i] == u.log[i]; }
    }
  }

  lemma SetDownMakesNone(s: State, m: MachineId, down: bool)
    requires m in s.machines
    ensures NoTaskMade(s, SetDown(s, m, down))
  {
  }

  lemma ReleaseMakesNone(c: Scenario, s: State, d: DemandId)
    requires d in c.demands
    ensures NoTaskMade(s, ReleaseDemand(c, s, d))
  {
  }

  lemma AdmitMakesNone(s: State, j: JobId, p: Place, queue: seq<JobId>)
    requires j in s.jobs && p in s.storage
    ensures NoTaskMade(s, AdmitJob(s, j, p, queue))
  {
  }

  lemma UnblockMakesNone(c: Scenario, s: State, m: MachineId)
    requires WellFormed(c) && Inv(c, s) && m in c.machines
    ensures NoTaskMade(s, Unblock(c, s, m))
  {
    assert MachineOk(c, s.jobs, m, s.machines[m]) && GoodMachine(c, m);
  }

  lemma CancelMakesNone(c: Scenario, s: State, v: AgvId)
    requires v in s.agvs
    ensures NoTaskMade(s, Cancel(c, s, v))
  {
  }

  lemma ReconcileMakesNone(c: Scenario, s: State, v: AgvId)
    requires WellFormed(c) && Inv(c, s) && v in s.agvs
    ensures NoTaskMade(s, Reconcile(c, s, v))
  {
    if v in s.assignments {
      assert AssignmentOk(c, s.jobs, s.agvs[v], s.assignments[v]);
      CancelMakesNone(c, s, v);
    }
  }

  lemma CompleteMakesNone(c: Scenario, s: State, v: AgvId)
    requires WellFormed(c) && Inv(c, s) && v in s.agvs
    ensures NoTaskMade(s, Complete(c, s, v))
  {
    assert VehicleOk(c, s.jobs, s.agvs[v]);
    hide PickUp, Deliver;
    if s.agvs[v].service.Some? {
      var x := s.agvs[v].service.value;
      assert KnownPlace(c, x.place);
      TransferMakesNone(c, s, v, x.job, x.place);
    }
  }

  lemma TransferMakesNone(c: Scenario, s: State, v: AgvId, j: JobId, p: Place)
    requires v in s.agvs && j in s.jobs && p in s.storage && p.owner in c.buffers
    ensures NoTaskMade(s, PickUp(s, v, j, p)) && NoTaskMade(s, Deliver(c, s, v, j, p))
  {
  }

  lemma WorkMakesNone(c: Scenario, s: State, m: MachineId, k: int)
    requires WellFormed(c) && Inv(c, s) && m in c.machines
    ensures NoTaskMade(s, Work(c, s, m, k))
  {
    assert MachineOk(c, s.jobs, m, s.machines[m]);
  }

  lemma {:induction false} FlagsMakeNone(c: Scenario, s: State, n: nat, scan: bool)
    requires WellFormed(c) && Inv(c, s) && n <= |c.machineIds|
    ensures NoTaskMade(s, Flags(c, s, n, scan))
  {
    hide Inv, NoTaskMade, Covered, DownAt, Settling.OnlyFlags, Settling.Flagged, Settling.FlagsCurrent, Settling.ScanAgrees;
    NothingMade(s);
    if n > 0 {
      FlagsMakeNone(c, s, n - 1, scan);
      var u, m := Flags(c, s, n - 1, scan), c.machineIds[n - 1];
      assert m in SetOf(c.machineIds);
      MachineKnown(c, u, m);
      SetDownMakesNone(u, m, if scan then Covered(c.outages, m, u.tick) else DownAt(c.outages, m, u.tick));
      NoTaskMadeOn(s, u, Flags(c, s, n, scan));
    }
  }

  lemma NothingMade(s: State)
    ensures NoTaskMade(s, s)
  {
  }

  lemma ShapeKnown(c: Scenario, s: State)
    requires WellFormed(c) && Inv(c, s)
    ensures Shaped(c, s)
  {
  }

  lemma MachineKnown(c: Scenario, s: State, m: MachineId)
    requires WellFormed(c) && Inv(c, s) && m in c.machines
    ensures m in s.machines
  {
  }

  lemma {:induction false} ReleasesMakeNone(c: Scenario, s: State, n: nat)
    requires WellFormed(c) && Inv(c, s) && n <= |c.demandIds|
    ensures NoTaskMade(s, Releases(c, s, n))
  {
    hide Inv, NoTaskMade;
    NothingMade(s);
    if n > 0 {
      ReleasesMakeNone(c, s, n - 1);
      var u, d := Releases(c, s, n - 1), c.demandIds[n - 1];
      assert d in SetOf(c.demandIds);
      ReleaseMakesNone(c, u, d);
      NoTaskMadeOn(s, u, Releases(c, s, n));
    }
  }

  lemma {:induction false} AdmitMakeNone(c: Scenario, s: State, kept: seq<JobId>, rest: seq<JobId>, full: set<BufferId>)
    requires WellFormed(c) && Inv(c, s) && s.queue == kept + rest
    requires Settling.AllStuck(c, s.storage, kept) && forall b :: b in full ==> Crammed(c, s.storage, b)
    ensures NoTaskMade(s, Admit(c, s, kept, rest, full))
    decreases |rest|
  {
    hide Inv, NoTaskMade;
    NothingMade(s);
    if rest != [] {
      var j := rest[0];
      QueuedJob(c, s, kept, rest);
      ShapeKnown(c, s);
      var b := c.demands[j.demand].input;
      var k := Free(c, s, b);
      if k.None? || b in full {
        assert s.queue == (kept + [j]) + rest[1..];
        Settling.AllStuckAppend(c, s.storage, kept, j);
        AdmitMakeNone(c, s, kept + [j], rest[1..], full + {b});
      } else {
        var p := Place(b, k.value);
        var t := AdmitJob(s, j, p, kept + rest[1..]);
        Preservation.AdmitKeeps(c, s, j, p, kept + rest[1..]);
        Settling.AdmitFrame(s, j, p, kept + rest[1..]);
        StillFull(c, s, t, kept, full);
        AdmitMakesNone(s, j, p, kept + rest[1..]);
        AdmitMakeNone(c, t, kept, rest[1..], full);
        NoTaskMadeOn(s, t, Admit(c, t, kept, rest[1..], full));
      }
    }
  }

  lemma {:induction false} UnblocksMakeNone(c: Scenario, s: State, n: nat)
    requires WellFormed(c) && Inv(c, s) && n <= |c.machineIds|
    ensures NoTaskMade(s, Unblocks(c, s, n))
  {
    hide Inv, NoTaskMade;
    NothingMade(s);
    if n > 0 {
      UnblocksMakeNone(c, s, n - 1);
      var u, m := Unblocks(c, s, n - 1), c.machineIds[n - 1];
      assert m in SetOf(c.machineIds);
      UnblockMakesNone(c, u, m);
      NoTaskMadeOn(s, u, Unblocks(c, s, n));
    }
  }

  lemma BoundaryMakesNone(c: Scenario, s: State, scan: bool)
    requires WellFormed(c) && Inv(c, s)
    ensures NoTaskMade(s, Boundary(c, s, scan))
  {
    hide Inv, NoTaskMade, Flags, Releases, Admit, Unblocks;
    var flagged := Flags(c, s, |c.machineIds|, scan);
    FlagsMakeNone(c, s, |c.machineIds|, scan);
    var due := Releases(c, flagged, |c.demandIds|);
    ReleasesMakeNone(c, flagged, |c.demandIds|);
    assert due.queue == [] + due.queue;
    AdmitMakeNone(c, due, [], due.queue, {});
    var admitted := AdmitAll(c, due);
    UnblocksMakeNone(c, admitted, |c.machineIds|);
    NoTaskMadeOn(s, flagged, due);
    NoTaskMadeOn(s, due, admitted);
    NoTaskMadeOn(s, admitted, Boundary(c, s, scan));
  }

  lemma {:induction false} WithdrawMakesNone(c: Scenario, q: seq<AgvId>, s: State, n: nat)
    requires WellFormed(c) && Inv(c, s) && InTurn(c, q) && n <= |q|
    ensures NoTaskMade(s, Withdraw(c, q, s, n))
  {
    hide *;
    WithdrawFirst(c, q, s);
    NothingMade(s);
    if n > 0 {
      WithdrawMakesNone(c, q, s, n - 1);
      WithdrawNext(c, q, s, n - 1);
      var u := Withdraw(c, q, s, n - 1);
      CancelMakesNone(c, u, q[n - 1]);
      NothingMade(u);
      NoTaskMadeOn(s, u, Withdraw(c, q, s, n));
    }
  }

  lemma {:induction false} InterruptMakesNone(c: Scenario, s: State, n: nat)
    requires WellFormed(c) && Inv(c, s) && n <= |c.agvIds|
    ensures NoTaskMade(s, Interrupt(c, s, n))
  {
    hide Inv, NoTaskMade, Cancel;
    NothingMade(s);
    if n > 0 {
      InterruptMakesNone(c, s, n - 1);
      var u, v := Interrupt(c, s, n - 1), c.agvIds[n - 1];
      assert v in SetOf(c.agvIds);
      VehicleKnown(c, u, v);
      CancelMakesNone(c, u, v);
      NothingMade(u);
      NoTaskMadeOn(s, u, Interrupt(c, s, n));
    }
  }

  lemma VehicleKnown(c: Scenario, s: State, v: AgvId)
    requires WellFormed(c) && Inv(c, s) && v in SetOf(c.agvIds)
    ensures v in s.agvs
  {
  }

  lemma {:induction false} CompletesMakeNone(c: Scenario, s: State, n: nat)
    requires WellFormed(c) && Inv(c, s) && n <= |c.agvIds|
    ensures NoTaskMade(s, Completes(c, s, n))
  {
    hide Inv, NoTaskMade, Complete;
    NothingMade(s);
    if n > 0 {
      CompletesMakeNone(c, s, n - 1);
      var u, v := Completes(c, s, n - 1), c.agvIds[n - 1];
      assert v in SetOf(c.agvIds);
      VehicleKnown(c, u, v);
      CompleteMakesNone(c, u, v);
      NoTaskMadeOn(s, u, Completes(c, s, n));
    }
  }

  lemma {:induction false} ReconcilesMakeNone(c: Scenario, q: seq<AgvId>, s: State, n: nat)
    requires WellFormed(c) && Inv(c, s) && InTurn(c, q) && n <= |q|
    ensures NoTaskMade(s, Reconciles(c, q, s, n))
  {
    hide *;
    NothingReconciled(c, q, s);
    NothingMade(s);
    if n > 0 {
      ReconcilesMakeNone(c, q, s, n - 1);
      ReconcilesNext(c, q, s, n - 1);
      var u := Reconciles(c, q, s, n - 1);
      ReconcileMakesNone(c, u, q[n - 1]);
      NoTaskMadeOn(s, u, Reconciles(c, q, s, n));
    }
  }

  lemma TasksMakeNone(c: Scenario, s: State)
    requires WellFormed(c) && Inv(c, s)
    ensures NoTaskMade(s, WithdrawTasks(c, s)) && NoTaskMade(s, ReconcileTasks(c, s))
  {
    hide Inv, NoTaskMade;
    var q := Turns(c, s.log);
    WithdrawMakesNone(c, q, s, |q|);
    ReconcilesMakeNone(c, q, s, |q|);
  }

  lemma SyncMakesNone(c: Scenario, s: State)
    ensures NoTaskMade(s, SyncIdle(c, s))
  {
  }

  lemma ServicesMakeNone(c: Scenario, s: State)
    requires WellFormed(c) && Inv(c, s)
    ensures NoTaskMade(s, CompleteServices(c, s))
  {
    hide Inv, NoTaskMade, WithdrawTasks, Interrupt, Completes, ReconcileTasks, SyncIdle;
    var n := |c.agvIds|;
    var w := WithdrawTasks(c, s);
    var i := Interrupt(c, w, n);
    var d := Completes(c, i, n);
    var r := ReconcileTasks(c, d);
    TasksMakeNone(c, s);
    InterruptMakesNone(c, w, n);
    CompletesMakeNone(c, i, n);
    TasksMakeNone(c, d);
    SyncMakesNone(c, r);
    NoTaskMadeOn(s, w, i);
    NoTaskMadeOn(s, i, d);
    NoTaskMadeOn(s, d, r);
    NoTaskMadeOn(s, r, SyncIdle(c, r));
  }

  lemma {:induction false} WorksMakeNone(c: Scenario, s: State, n: nat, k: int)
    requires WellFormed(c) && Inv(c, s) && n <= |c.machineIds| && Reachable(s, k)
    ensures NoTaskMade(s, Works(c, s, n, k))
  {
    hide Inv, NoTaskMade, Work, OnlyWork, Unworked, Workable, ShopWorks, WithShop;
    NothingMade(s);
    if n > 0 {
      WorksMakeNone(c, s, n - 1, k);
      var u, m := Works(c, s, n - 1, k), c.machineIds[n - 1];
      assert m in SetOf(c.machineIds);
      WorkMakesNone(c, u, m, k);
      NoTaskMadeOn(s, u, Works(c, s, n, k));
    }
  }

  lemma {:induction false} MovesAssignNone(c: Scenario, s: State, acts: Actions, ids: seq<AgvId>)
    ensures NoneAssigned(MoveEvents(c, s, acts, ids), 0) && NoneAssigned(RejectEvents(c, s, acts, ids), 0)
  {
    if ids != [] { MovesAssignNone(c, s, acts, ids[1..]); }
  }

  lemma DepartMakesNone(c: Scenario, s: State, acts: Actions, k: int)
    requires WellFormed(c) && Inv(c, s) && Reachable(s, k)
    ensures NoTaskMade(s, Depart(c, s, acts, k))
  {
    hide Inv;
    MovesAssignNone(c, s, acts, c.agvIds);
  }

  lemma IntervalMakesNone(c: Scenario, s: State, acts: Actions, k: int)
    requires WellFormed(c) && Inv(c, s) && Reachable(s, k)
    ensures NoTaskMade(s, Interval(c, s, acts, k))
  {
    hide Inv, NoTaskMade, Depart, CompleteServices, Works, Boundary;
    var a := Depart(c, s, acts, k);
    var v, u := CompleteServices(c, a), Advance(c, a, k);
    assert Reachable(v, k) by { forall m | m in v.machines ensures WithinWork(v.machines, m, k) { assert WithinWork(a.machines, m, k); } }
    DepartMakesNone(c, s, acts, k);
    ServicesMakeNone(c, a);
    WorksMakeNone(c, v, |c.machineIds|, k);
    BoundaryMakesNone(c, u, false);
    NoTaskMadeOn(s, a, v);
    NoTaskMadeOn(s, v, u);
    NoTaskMadeOn(s, u, Interval(c, s, acts, k));
  }

  lemma OthersMakeNone(c: Scenario, s: State, d: Decision)
    requires WellFormed(c) && Stable(c, s) && Enabled(c, s, d) && !d.AssignTask? && !d.Proceed?
    ensures NoTaskMade(s, Apply(c, s, d))
  {
    hide Inv, Calm, Settling.DueReleased, ReconcileTasks, Cancel;
    match d
    case CancelStale(v) => CancelMakesNone(c, s, v);
    case ReconcileAll => TasksMakeNone(c, s);
    case _ =>
  }

  lemma AssignedParts(c: Scenario, s: State, v: AgvId, j: JobId, b: BufferId)
    requires WellFormed(c) && Stable(c, s) && Enabled(c, s, AssignTask(v, j, b))
    ensures NoDup(c.agvIds) && v in c.agvIds && v !in s.assignments && v in s.agvs && j in s.jobs
    ensures s.agvs[v].job.None? ==> s.jobs[j].loc.Stored?
  {
    assert s.agvs.Keys == SetOf(c.agvIds);
  }

  /** In every run, a decision that makes a task enters its vehicle last, and every other decision and
      interval leaves the remaining tasks in their order. */
  lemma KeyOrderIsInsertionOrder(c: Scenario, s: State, d: Decision)
    requires WellFormed(c) && Stable(c, s) && Enabled(c, s, d)
    ensures var t := Apply(c, s, d);
            KeyOrder(c, t) == if d.AssignTask? then KeyOrder(c, s) + [d.v] else Entered(KeyOrder(c, s), t.assignments)
  {
    hide Inv, Calm, Settling.DueReleased, KeyOrder, Interval, Assign, NoTaskMade;
    match d
    case AssignTask(v, j, b) =>
      AssignedParts(c, s, v, j, b);
      MadeComesLast(c, s, v, j, b);
    case Proceed(acts, k) =>
      AllowedIsReachable(c, s, acts, k);
      IntervalMakesNone(c, s, acts, k);
      RemovedLeavesOrder(c, s, Apply(c, s, d));
    case _ =>
      OthersMakeNone(c, s, d);
      RemovedLeavesOrder(c, s, Apply(c, s, d));
  }
}
