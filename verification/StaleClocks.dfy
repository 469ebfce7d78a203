/** When the jump and its subdivision differ: only through an idle clock that was not synchronized
    when its vehicle got a task, and whose task is withdrawn at the very end of the jump. */
module StaleClocks {
  import opened Factory
  import opened Custody
  import opened Safety
  import opened Operations
  import opened Settling
  import opened Physics
  import opened Stepping
  import opened TimeJump

  // -- withdrawing assignments, vehicle by vehicle ---------------------------------------------

  /** The `i`-th vehicle loses its assignment at this tick. */
  predicate Hit(c: Scenario, q: seq<AgvId>, tasks: map<AgvId, Assignment>, tick: int, i: nat)
    requires i < |q|
  {
    q[i] in tasks && DownOwner(c, tick, tasks[q[i]].destination)
  }

  /** The `i`-th vehicle is the first to lose its assignment. */
  ghost predicate FirstHit(c: Scenario, q: seq<AgvId>, tasks: map<AgvId, Assignment>, tick: int, i: nat) {
    i < |q| && Hit(c, q, tasks, tick, i) && forall k: nat {:trigger Hit(c, q, tasks, tick, k)} :: k < i ==> !Hit(c, q, tasks, tick, k)
  }

  lemma {:induction false} FirstHitExists(c: Scenario, q: seq<AgvId>, tasks: map<AgvId, Assignment>, tick: int, n: nat)
    requires n <= |q|
    ensures (exists i :: FirstHit(c, q, tasks, tick, i)) || forall k: nat {:trigger Hit(c, q, tasks, tick, k)} :: k < n ==> !Hit(c, q, tasks, tick, k)
  {
    if n > 0 {
      FirstHitExists(c, q, tasks, tick, n - 1);
      if (forall k: nat {:trigger Hit(c, q, tasks, tick, k)} :: k < n - 1 ==> !Hit(c, q, tasks, tick, k)) && Hit(c, q, tasks, tick, n - 1) {
        assert FirstHit(c, q, tasks, tick, n - 1);
      }
    }
  }

  lemma {:induction false} NoneHit(c: Scenario, q: seq<AgvId>, f: Fleet, tick: int, done: bool, n: nat)
    requires n <= |q| && VehiclesListed(q, f.agvs)
    requires forall k: nat {:trigger Hit(c, q, f.assignments, tick, k)} :: k < n ==> !Hit(c, q, f.assignments, tick, k)
    ensures FleetWithdraw(c, q, f, tick, done, n) == f
  {
    if n > 0 {
      NoneHit(c, q, f, tick, done, n - 1);
      assert !Hit(c, q, f.assignments, tick, n - 1);
    }
  }

  lemma {:induction false} SameAfter(c: Scenario, q: seq<AgvId>, f: Fleet, g: Fleet, tick: int, done: bool, i: nat, n: nat)
    requires i <= n <= |q| && VehiclesListed(q, f.agvs) && VehiclesListed(q, g.agvs)
    requires FleetWithdraw(c, q, f, tick, done, i) == FleetWithdraw(c, q, g, tick, done, i)
    ensures FleetWithdraw(c, q, f, tick, done, n) == FleetWithdraw(c, q, g, tick, done, n)
  {
    if i < n { SameAfter(c, q, f, g, tick, done, i, n - 1); }
  }

  /** Idle clocks play no part in who is withdrawn. */
  lemma {:induction false} WithdrawIgnoresClocks(c: Scenario, q: seq<AgvId>, f: Fleet, g: Fleet, tick: int, done: bool, n: nat)
    requires n <= |q| && VehiclesListed(q, f.agvs) && g == f.(idleSince := g.idleSince)
    ensures var a, b := FleetWithdraw(c, q, f, tick, done, n), FleetWithdraw(c, q, g, tick, done, n); b == a.(idleSince := b.idleSince)
  {
    if n > 0 {
      WithdrawIgnoresClocks(c, q, f, g, tick, done, n - 1);
      StepIgnoresClocks(c, FleetWithdraw(c, q, f, tick, done, n - 1), FleetWithdraw(c, q, g, tick, done, n - 1), tick, done, q[n - 1]);
    }
  }

  lemma StepIgnoresClocks(c: Scenario, f: Fleet, g: Fleet, tick: int, done: bool, v: AgvId)
    requires v in f.agvs && g == f.(idleSince := g.idleSince)
    ensures var a, b := FleetStep(c, f, tick, done, v), FleetStep(c, g, tick, done, v); b == a.(idleSince := b.idleSince)
  {
  }

  /** A running clock keeps running. */
  ghost predicate Runs(f: Fleet, v: AgvId, since: int) {
    v in f.agvs && IdleVehicle(f.agvs[v]) && v in f.idleSince && f.idleSince[v] == since
  }

  lemma CancelRuns(f: Fleet, tick: int, v: AgvId, since: int, w: AgvId)
    requires Runs(f, v, since) && w in f.agvs
    ensures Runs(FleetCancel(f, tick, false, w), v, since)
  {
  }

  lemma {:induction false} ClockRuns(c: Scenario, q: seq<AgvId>, f: Fleet, tick: int, i: nat, n: nat, v: AgvId, since: int)
    requires i <= n <= |q| && VehiclesListed(q, f.agvs) && Runs(FleetWithdraw(c, q, f, tick, false, i), v, since)
    ensures Runs(FleetWithdraw(c, q, f, tick, false, n), v, since)
  {
    if i < n {
      ClockRuns(c, q, f, tick, i, n - 1, v, since);
      CancelRuns(FleetWithdraw(c, q, f, tick, false, n - 1), tick, v, since, q[n - 1]);
    }
  }

  /** An empty vehicle whose idle clock was left running when it got its task. */
  predicate Stale(f: Fleet, tick: int, v: AgvId) {
    v in f.agvs && v in f.idleSince && f.idleSince[v] != tick && f.agvs[v].job.None? && f.agvs[v].target.Some?
  }

  ghost predicate StaleFirst(c: Scenario, q: seq<AgvId>, f: Fleet, tick: int) {
    exists i: nat :: FirstHit(c, q, f.assignments, tick, i) && Stale(f, tick, q[i])
  }

  /** `g` is `f` with the clocks of exactly the idle vehicles. */
  ghost predicate Trimmed(f: Fleet, g: Fleet) {
    && g == f.(idleSince := g.idleSince)
    && (forall v :: v in g.idleSince <==> v in f.agvs && IdleVehicle(f.agvs[v]))
    && (forall v :: v in g.idleSince ==> v in f.idleSince && g.idleSince[v] == f.idleSince[v])
  }

  function ClocksAfter(c: Scenario, q: seq<AgvId>, f: Fleet, tick: int, done: bool): map<AgvId, int>
    requires VehiclesListed(q, f.agvs)
  {
    var g := FleetWithdraw(c, q, f, tick, done, |q|);
    RunningClocks(g.agvs, g.idleSince, tick, done)
  }

  /** The first withdrawal synchronizes all clocks; only its own vehicle's stale clock survives. */
  lemma FirstWithdrawal(c: Scenario, q: seq<AgvId>, f: Fleet, g: Fleet, tick: int, i: nat)
    requires Trimmed(f, g) && VehiclesListed(q, f.agvs) && FirstHit(c, q, f.assignments, tick, i)
    requires f.agvs[q[i]].target.Some?
    ensures FleetWithdraw(c, q, f, tick, false, i + 1) == FleetCancel(f, tick, false, q[i])
    ensures FleetWithdraw(c, q, g, tick, false, i + 1) == FleetCancel(g, tick, false, q[i])
  {
    NoneHit(c, q, f, tick, false, i);
    NoneHit(c, q, g, tick, false, i);
  }

  lemma CancelTrimmed(f: Fleet, g: Fleet, tick: int, v: AgvId)
    requires Trimmed(f, g) && v in f.agvs && f.agvs[v].target.Some? && !Stale(f, tick, v)
    ensures FleetCancel(g, tick, false, v) == FleetCancel(f, tick, false, v)
  {
    assert FleetCancel(g, tick, false, v).idleSince == FleetCancel(f, tick, false, v).idleSince;
  }

  lemma StaleSurvives(c: Scenario, q: seq<AgvId>, f: Fleet, tick: int, i: nat, since: int)
    requires VehiclesListed(q, f.agvs) && i < |q|
    requires Runs(FleetWithdraw(c, q, f, tick, false, i + 1), q[i], since)
    ensures q[i] in ClocksAfter(c, q, f, tick, false) && ClocksAfter(c, q, f, tick, false)[q[i]] == since
  {
    ClockRuns(c, q, f, tick, i + 1, |q|, q[i], since);
  }

  lemma CancelStale(f: Fleet, g: Fleet, tick: int, v: AgvId)
    requires Trimmed(f, g) && Stale(f, tick, v)
    ensures Runs(FleetCancel(f, tick, false, v), v, f.idleSince[v]) && Runs(FleetCancel(g, tick, false, v), v, tick)
  {
  }

  lemma FirstHitDecides(c: Scenario, q: seq<AgvId>, f: Fleet, g: Fleet, tick: int, i: nat)
    requires Trimmed(f, g) && VehiclesListed(q, f.agvs) && FirstHit(c, q, f.assignments, tick, i)
    requires f.agvs[q[i]].target.Some?
    ensures ClocksAfter(c, q, f, tick, false) == ClocksAfter(c, q, g, tick, false) <==> !Stale(f, tick, q[i])
  {
    var v := q[i];
    FirstWithdrawal(c, q, f, g, tick, i);
    if Stale(f, tick, v) {
      CancelStale(f, g, tick, v);
      StaleSurvives(c, q, f, tick, i, f.idleSince[v]);
      StaleSurvives(c, q, g, tick, i, tick);
    } else {
      CancelTrimmed(f, g, tick, v);
      SameAfter(c, q, f, g, tick, false, i + 1, |q|);
    }
  }

  lemma ClocksExactly(c: Scenario, q: seq<AgvId>, f: Fleet, g: Fleet, tick: int, done: bool)
    requires Trimmed(f, g) && VehiclesListed(q, f.agvs)
    requires forall v :: v in f.assignments && v in f.agvs ==> f.agvs[v].target.Some?
    ensures ClocksAfter(c, q, f, tick, done) == ClocksAfter(c, q, g, tick, done) <==> done || !StaleFirst(c, q, f, tick)
  {
    if !done {
      FirstHitExists(c, q, f.assignments, tick, |q|);
      if i: nat :| FirstHit(c, q, f.assignments, tick, i) {
        FirstHitDecides(c, q, f, g, tick, i);
        if !Stale(f, tick, q[i]) { OnlyFirst(c, q, f, tick, i); }
      } else {
        NoneHit(c, q, f, tick, done, |q|);
        NoneHit(c, q, g, tick, done, |q|);
        assert ClocksAfter(c, q, f, tick, done) == ClocksAfter(c, q, g, tick, done);
      }
    }
  }

  lemma FirstHitUnique(c: Scenario, q: seq<AgvId>, tasks: map<AgvId, Assignment>, tick: int, i: nat, k: nat)
    requires FirstHit(c, q, tasks, tick, i) && FirstHit(c, q, tasks, tick, k)
    ensures i == k
  {
  }

  lemma OnlyFirst(c: Scenario, q: seq<AgvId>, f: Fleet, tick: int, i: nat)
    requires FirstHit(c, q, f.assignments, tick, i) && !Stale(f, tick, q[i])
    ensures !StaleFirst(c, q, f, tick)
  {
    forall k: nat | FirstHit(c, q, f.assignments, tick, k) ensures !Stale(f, tick, q[k]) {
      FirstHitUnique(c, q, f.assignments, tick, i, k);
    }
  }

  /** In the order of the assignments at `s`, the first one withdrawn at `tick` is a stale vehicle's. */
  ghost predicate StaleWithdrawal(c: Scenario, s: State, tick: int) {
    StaleFirst(c, Turns(c, s.log), FleetOf(s), tick)
  }

  // -- the exact condition ---------------------------------------------------------------------

  /** A boundary and the machines leave the idle clocks of the services phase as they are. */
  lemma IntervalClocks(c: Scenario, s: State, acts: Actions, k: int)
    requires WellFormed(c) && Inv(c, s) && Reachable(s, k)
    ensures Interval(c, s, acts, k).idleSince == CompleteServices(c, Depart(c, s, acts, k)).idleSince
  {
  }

  lemma RestfulClocks(c: Scenario, a: State, f: Fleet, tick: int, done: bool)
    requires WellFormed(c) && Inv(c, a) && Restful(c, a) && f == FleetOf(a) && tick == a.tick && done == Done(c, a)
    ensures VehiclesListed(Turns(c, f.log), f.agvs)
    ensures CompleteServices(c, a).idleSince == ClocksAfter(c, Turns(c, f.log), f, tick, done)
  {
    RestfulServices(c, a);
  }

  /** The idle clocks a jump leaves. */
  lemma JumpClocks(c: Scenario, s: State, acts: Actions, k: int, tick: int, done: bool)
    requires WellFormed(c) && Inv(c, s) && Restful(c, s) && AllWait(acts) && Reachable(s, k)
    requires tick == s.tick + k && done == DoneAt(c, s.ledger.shipped, s.tick + k)
    ensures VehiclesListed(Turns(c, s.log), s.agvs)
    ensures CompleteServices(c, Depart(c, s, acts, k)).idleSince == ClocksAfter(c, Turns(c, s.log), FleetOf(s), tick, done)
  {
    hide Inv, CompleteServices;
    var a := Depart(c, s, acts, k);
    DepartFields(c, s, acts, k);
    LaterRestful(c, s, a);
    RestfulClocks(c, a, FleetOf(s), tick, done);
  }

  lemma FleetAgrees(c: Scenario, a: State, b: State)
    requires SameYet(a, b) && b.tick == a.tick && b.machines == a.machines && VehiclesListed(Turns(c, a.log), a.agvs)
    ensures var p := SyncIdle(c, WithFleet(a, FleetTurns(c, FleetOf(a), a.tick, Done(c, a))));
            var q := SyncIdle(c, WithFleet(b, FleetTurns(c, FleetOf(b), b.tick, Done(c, b))));
            SameYet(p, q) && q.tick == p.tick && q.machines == p.machines
  {
    WithdrawIgnoresClocks(c, Turns(c, a.log), FleetOf(a), FleetOf(b), a.tick, Done(c, a), |Turns(c, a.log)|);
  }

  /** Services of two states that differ in idle clocks only. */
  lemma RestfulServicesAgree(c: Scenario, a: State, b: State)
    requires WellFormed(c) && Inv(c, a) && Inv(c, b) && Restful(c, a) && Restful(c, b)
    requires SameYet(a, b) && b.tick == a.tick && b.machines == a.machines
    requires CompleteServices(c, b).idleSince == CompleteServices(c, a).idleSince
    ensures CompleteServices(c, b) == CompleteServices(c, a)
  {
    hide Inv;
    RestfulServices(c, a);
    RestfulServices(c, b);
    FleetAgrees(c, a, b);
  }

  lemma IntervalAgrees(c: Scenario, s: State, x: State, acts: Actions, k: int)
    requires WellFormed(c) && Inv(c, s) && Inv(c, x) && Reachable(s, k) && Reachable(x, k)
    requires CompleteServices(c, Depart(c, x, acts, k)) == CompleteServices(c, Depart(c, s, acts, k))
    ensures Interval(c, x, acts, k) == Interval(c, s, acts, k)
  {
    hide Inv;
  }

  /** Two jumps from states that differ in idle clocks only. */
  lemma JumpsAgree(c: Scenario, s: State, x: State, acts: Actions, k: int)
    requires WellFormed(c) && Inv(c, s) && Inv(c, x) && Restful(c, s) && Restful(c, x)
    requires SameYet(s, x) && x.tick == s.tick && x.machines == s.machines
    requires AllWait(acts) && Reachable(s, k) && Reachable(x, k)
    ensures Interval(c, x, acts, k) == Interval(c, s, acts, k)
            <==> CompleteServices(c, Depart(c, x, acts, k)).idleSince == CompleteServices(c, Depart(c, s, acts, k)).idleSince
  {
    hide Inv, Interval, CompleteServices;
    IntervalClocks(c, s, acts, k);
    IntervalClocks(c, x, acts, k);
    DepartFields(c, s, acts, k);
    DepartFields(c, x, acts, k);
    var a, b := Depart(c, s, acts, k), Depart(c, x, acts, k);
    if CompleteServices(c, b).idleSince == CompleteServices(c, a).idleSince {
      LaterRestful(c, s, a);
      LaterRestful(c, x, b);
      RestfulServicesAgree(c, a, b);
      IntervalAgrees(c, s, x, acts, k);
    }
  }

  lemma SyncTrims(c: Scenario, s: State, x: State)
    requires Synced(c, s, x) && ClocksKnown(c, s) && !Done(c, s)
    ensures Trimmed(FleetOf(s), FleetOf(x))
  {
    forall v | v in s.agvs && IdleVehicle(s.agvs[v]) ensures v in s.idleSince { assert Clocked(s.agvs, s.idleSince, v); }
  }

  lemma AimedTargets(agvs: Agvs, tasks: map<AgvId, Assignment>)
    requires Aimed(agvs, tasks)
    ensures forall v :: v in tasks && v in agvs ==> agvs[v].target.Some?
  {
    AimedMeans(agvs, tasks);
  }

  lemma JumpsExactly(c: Scenario, s: State, x: State, acts: Actions, k: int, tick: int, done: bool)
    requires WellFormed(c) && Inv(c, s) && Inv(c, x) && Restful(c, s) && Restful(c, x) && !Done(c, s)
    requires Synced(c, s, x) && ClocksKnown(c, s) && Aimed(s.agvs, s.assignments)
    requires AllWait(acts) && Reachable(s, k) && Reachable(x, k)
    requires tick == s.tick + k && done == DoneAt(c, s.ledger.shipped, tick)
    ensures Interval(c, x, acts, k) == Interval(c, s, acts, k) <==> done || !StaleWithdrawal(c, s, tick)
  {
    hide Inv, Interval, Restful, StaleFirst, CompleteServices, Depart;
    JumpsAgree(c, s, x, acts, k);
    JumpClocks(c, s, acts, k, tick, done);
    JumpClocks(c, x, acts, k, tick, done);
    SyncTrims(c, s, x);
    AimedTargets(s.agvs, s.assignments);
    ClocksExactly(c, Turns(c, s.log), FleetOf(s), FleetOf(x), tick, done);
    var p, q := ClocksAfter(c, Turns(c, s.log), FleetOf(s), tick, done), ClocksAfter(c, Turns(c, x.log), FleetOf(x), tick, done);
    assert p == q <==> q == p;
  }

  /** The jump and its subdivision reach the same state unless the run goes on and the first
      assignment withdrawn at the end of the jump belongs to an empty vehicle with a stale idle clock. */
  lemma JumpExactly(c: Scenario, s: State, acts: Actions, k: int)
    requires WellFormed(c) && Decided(c, s) && Quiet(c, s, k) && k >= 2 && AllWait(acts)
    ensures Ticks(c, s, acts, k) == Interval(c, s, acts, k)
            <==> DoneAt(c, s.ledger.shipped, s.tick + k) || !StaleWithdrawal(c, s, s.tick + k)
  {
    hide Inv, Interval, Ticks, StaleWithdrawal, Depart, Settled, FlagsCurrent;
    var x := SyncIdle(c, s);
    SyncRestful(c, s);
    assert Reachable(x, k) by { forall m | m in x.machines ensures WithinWork(x.machines, m, k) { assert WithinWork(s.machines, m, k); } }
    JumpAfterSync(c, s, x, acts, k);
    JumpsExactly(c, s, x, acts, k, s.tick + k, DoneAt(c, s.ledger.shipped, s.tick + k));
  }

  // -- the guard of the jump -------------------------------------------------------------------

  /** `traffic_view`'s "ready" of a vehicle on its way to load: some job there is not being loaded. */
  ghost predicate LoadReady(s: State, v: AgvId)
    requires v in s.agvs
  {
    && s.agvs[v].job.None? && s.agvs[v].target.Some?
    && exists j :: j in s.jobs && s.jobs[j].loc.Stored? && s.jobs[j].loc.place.owner == s.agvs[v].target.value
                   && forall w :: w in s.agvs ==> !Loading(s.agvs[w], j)
  }

  /** `idle_interval` refuses to jump while a vehicle is ready. */
  ghost predicate NoneReady(s: State) {
    forall v {:trigger LoadReady(s, v)} :: v in s.agvs ==> !LoadReady(s, v)
  }

  /** While no vehicle is ready to load, no empty vehicle has a task, so no clock is stale. */
  lemma NoneStale(c: Scenario, s: State, tick: int)
    requires WellFormed(c) && Inv(c, s) && NoServices(s.agvs) && NoneReady(s)
    ensures !StaleWithdrawal(c, s, tick)
  {
    forall v | v in s.assignments ensures !Stale(FleetOf(s), tick, v) {
      var x := s.assignments[v];
      assert AssignmentOk(c, s.jobs, s.agvs[v], x);
      assert !LoadReady(s, v);
    }
  }

  /** A jump the simulator accepts reaches the state of its single ticks, under either controller. */
  lemma JumpIsTicks(c: Scenario, s: State, acts: Actions, k: int)
    requires WellFormed(c) && Decided(c, s) && Quiet(c, s, k) && AllWait(acts) && NoneReady(s)
    ensures Ticks(c, s, acts, k) == Interval(c, s, acts, k)
  {
    hide Inv, Interval, Ticks, StaleWithdrawal;
    if k >= 2 {
      JumpExactly(c, s, acts, k);
      NoneStale(c, s, s.tick + k);
    } else {
      assert k == 1;
      TicksOne(c, s, acts);
    }
  }
}
