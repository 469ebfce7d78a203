/** What the parts of a decision phase do, said with calendars, slots and rows: which reservations are given
    up, which machines start what, and which services begin. */
module Phases {
  import opened Collections
  import opened Availability
  import opened Factory
  import opened Custody
  import opened Safety
  import opened Operations
  import opened Settling
  import opened Physics
  import opened TimeJump
  import opened Reservations
  import Runs
  import Checks
  import ServiceTick
  import Durations

  // -- stale reservations ----------------------------------------------------------------------

  /** The owner takes nobody now: it is the PRE of a machine that is down, or the POST of one without stock. */
  ghost predicate Shut(c: Scenario, s: State, b: BufferId) {
    || (exists m :: m in c.machines && m in c.pre && c.pre[m] == b && DownAt(c.outages, m, s.tick))
    || (exists m :: m in c.machines && m in c.post && c.post[m] == b && DownAt(c.outages, m, s.tick)
                    && forall j :: j in s.jobs && s.jobs[j].loc.Stored? ==> s.jobs[j].loc.place.owner != b)
  }

  lemma ShutMeans(c: Scenario, s: State, b: BufferId)
    requires WellFormed(c) && Shaped(c, s) && FlagsCurrent(c, s) && b in c.buffers
    ensures Eligible(c, s, b) <==> !Shut(c, s, b)
  {
    assert GoodBuffer(c, b);
    forall m | m in c.machines ensures GoodMachine(c, m) && FlagCurrent(c, s.machines, m, s.tick) {}
    hide WellFormed, DownAt;
  }

  /** The vehicle heads for an owner that takes nobody. */
  ghost predicate Stale(c: Scenario, s: State, v: AgvId) {
    v in s.agvs && s.agvs[v].target.Some? && Shut(c, s, s.agvs[v].target.value)
  }

  ghost function StaleOf(c: Scenario, s: State, ids: seq<AgvId>): set<AgvId> {
    set v | v in ids && Stale(c, s, v)
  }

  /** The clocks of the vehicles that became idle run from now on, all others as before. */
  ghost predicate ClocksAfter(c: Scenario, s: State, t: State, given: set<AgvId>) {
    ClocksExact(s) && !Done(c, s) ==>
      && (forall v :: v in t.idleSince <==> v in t.agvs && IdleVehicle(t.agvs[v]))
      && forall v :: v in t.idleSince ==> if v in given then t.idleSince[v] == s.tick else v in s.idleSince && t.idleSince[v] == s.idleSince[v]
  }

  ghost predicate TellsOf(s: State, given: set<AgvId>, e: Event) {
    exists v :: v in given && v in s.agvs && s.agvs[v].target.Some?
                && (e == ReservationCancelled(s.tick, v, s.agvs[v].target.value)
                    || (s.agvs[v].service.Some? && e == ServiceInterrupted(s.tick, v, s.agvs[v].service.value)))
  }

  /** The new events are the cancellations of these vehicles. */
  ghost predicate Told(s: State, t: State, given: set<AgvId>) {
    && s.log <= t.log && (forall i {:trigger t.log[i]} :: |s.log| <= i < |t.log| ==> TellsOf(s, given, t.log[i]))
    && forall v :: v in given && v in s.agvs && s.agvs[v].target.Some? ==>
         && ReservationCancelled(s.tick, v, s.agvs[v].target.value) in t.log[|s.log|..]
         && (s.agvs[v].service.Some? ==> ServiceInterrupted(s.tick, v, s.agvs[v].service.value) in t.log[|s.log|..])
  }

  /** Exactly these vehicles gave up target and service. */
  ghost predicate GaveUp(c: Scenario, s: State, t: State, given: set<AgvId>) {
    ServiceTick.Dropped(s, t, given) && ClocksAfter(c, s, t, given) && Told(s, t, given)
  }

  lemma NobodyGaveUp(c: Scenario, s: State)
    requires s.assignments.Keys <= s.agvs.Keys
    ensures GaveUp(c, s, s, {})
  {
    ServiceTick.NothingDropped(s);
  }

  /** `Cancel` of a reservation, field by field. */
  lemma CancelFacts(c: Scenario, u: State, v: AgvId)
    requires v in u.agvs && u.agvs[v].target.Some?
    ensures var t, a := Cancel(c, u, v), u.agvs[v];
            && t.tick == u.tick && t.ledger == u.ledger && t.agvs == u.agvs[v := a.(target := None, service := None)]
            && t.idleSince == RunningClocks(t.agvs, u.idleSince, u.tick, Done(c, u))
            && t.log == u.log + [ReservationCancelled(u.tick, v, a.target.value)]
                        + if a.service.Some? then [ServiceInterrupted(u.tick, v, a.service.value)] else []
  {
  }

  lemma SyncAfter(c: Scenario, s: State, u: State, t: State, given: set<AgvId>, v: AgvId)
    requires ClocksAfter(c, s, u, given) && v in u.agvs && v !in given && u.agvs[v].target.Some? && u.tick == s.tick && u.ledger == s.ledger
    requires t.agvs == u.agvs[v := u.agvs[v].(target := None, service := None)] && t.idleSince == RunningClocks(t.agvs, u.idleSince, u.tick, Done(c, u))
    ensures ClocksAfter(c, s, t, given + {v})
  {
    assert Done(c, u) == Done(c, s);
    assert forall w :: w in t.agvs && w != v ==> t.agvs[w] == u.agvs[w];
    hide ClocksExact, DoneAt;
  }

  lemma CancelClocks(c: Scenario, s: State, u: State, given: set<AgvId>, v: AgvId)
    requires ServiceTick.Dropped(s, u, given) && ClocksAfter(c, s, u, given) && v in u.agvs && v !in given && u.agvs[v].target.Some?
    ensures ClocksAfter(c, s, Cancel(c, u, v), given + {v})
  {
    CancelFacts(c, u, v);
    DroppedBooks(s, u, given);
    hide Cancel, ClocksAfter, RunningClocks, Done;
    SyncAfter(c, s, u, Cancel(c, u, v), given, v);
  }

  lemma TellMore(s: State, u: State, t: State, given: set<AgvId>, v: AgvId)
    requires Told(s, u, given) && v in s.agvs && s.agvs[v].target.Some? && v !in given
    requires var a := s.agvs[v];
             t.log == u.log + [ReservationCancelled(s.tick, v, a.target.value)]
                      + if a.service.Some? then [ServiceInterrupted(s.tick, v, a.service.value)] else []
    ensures Told(s, t, given + {v})
  {
    var a := s.agvs[v];
    var one := ReservationCancelled(s.tick, v, a.target.value);
    var two := if a.service.Some? then [ServiceInterrupted(s.tick, v, a.service.value)] else [];
    var before, after := u.log[|s.log|..], t.log[|s.log|..];
    assert after == before + [one] + two;
    assert forall e :: e in after <==> e in before || e == one || e in two;
    forall i | |s.log| <= i < |t.log| ensures TellsOf(s, given + {v}, t.log[i]) {
      if i < |u.log| { assert t.log[i] == u.log[i] && TellsOf(s, given, u.log[i]); } else { OwnTells(s, given + {v}, v, t.log[i]); }
    }
  }

  lemma OwnTells(s: State, given: set<AgvId>, v: AgvId, e: Event)
    requires v in given && v in s.agvs && s.agvs[v].target.Some?
    requires e == ReservationCancelled(s.tick, v, s.agvs[v].target.value)
             || (s.agvs[v].service.Some? && e == ServiceInterrupted(s.tick, v, s.agvs[v].service.value))
    ensures TellsOf(s, given, e)
  {
  }

  lemma CancelTold(c: Scenario, s: State, u: State, given: set<AgvId>, v: AgvId)
    requires ServiceTick.Dropped(s, u, given) && Told(s, u, given) && v in u.agvs && v !in given && u.agvs[v].target.Some?
    ensures Told(s, Cancel(c, u, v), given + {v})
  {
    assert ServiceTick.DroppedRow(s, u, given, v);
    CancelFacts(c, u, v);
    assert u.tick == s.tick;
    hide Cancel, ServiceTick.Dropped, Told;
    TellMore(s, u, Cancel(c, u, v), given, v);
  }

  lemma DroppedBooks(s: State, u: State, given: set<AgvId>)
    requires ServiceTick.Dropped(s, u, given)
    ensures u.tick == s.tick && u.ledger == s.ledger
  {
  }

  lemma CancelGivesUp(c: Scenario, s: State, u: State, given: set<AgvId>, v: AgvId)
    requires GaveUp(c, s, u, given) && v in u.agvs && v !in given && u.agvs[v].target.Some?
    ensures GaveUp(c, s, Cancel(c, u, v), given + {v})
  {
    DroppedBooks(s, u, given);
    hide Cancel, ServiceTick.Dropped, ClocksAfter, Told;
    ServiceTick.CancelDrops(c, s, u, given, v);
    CancelClocks(c, s, u, given, v);
    CancelTold(c, s, u, given, v);
  }

  lemma EligibleStill(c: Scenario, s: State, u: State, b: BufferId)
    requires WellFormed(c) && Shaped(c, s) && Shaped(c, u) && b in c.buffers && OnlyFleet(s, u)
    ensures Eligible(c, u, b) == Eligible(c, s, b)
  {
  }

  /** The code's test of a reservation, when it is this vehicle's turn. */
  lemma StaleTest(c: Scenario, s: State, u: State, done: seq<AgvId>, v: AgvId)
    requires WellFormed(c) && Shaped(c, s) && Shaped(c, u) && FlagsCurrent(c, s) && ServiceTick.Dropped(s, u, StaleOf(c, s, done))
    requires v in u.agvs && v !in done && (u.agvs[v].target.Some? ==> u.agvs[v].target.value in c.buffers)
    ensures v in s.agvs && u.agvs[v] == s.agvs[v]
    ensures u.agvs[v].target.Some? && !Eligible(c, u, u.agvs[v].target.value) <==> Stale(c, s, v)
  {
    assert ServiceTick.DroppedRow(s, u, StaleOf(c, s, done), v);
    hide WellFormed, Shut, Shaped;
    if u.agvs[v].target.Some? {
      ShutMeans(c, s, u.agvs[v].target.value);
      EligibleStill(c, s, u, u.agvs[v].target.value);
    }
  }

  lemma StaleStep(c: Scenario, s: State, u: State, t: State, done: seq<AgvId>, v: AgvId)
    requires GaveUp(c, s, u, StaleOf(c, s, done)) && v in u.agvs && v !in done && v in s.agvs && u.agvs[v] == s.agvs[v]
    requires t == if Stale(c, s, v) then Cancel(c, u, v) else u
    ensures GaveUp(c, s, t, StaleOf(c, s, done + [v]))
  {
    hide GaveUp, Cancel, Shut;
    if Stale(c, s, v) {
      CancelGivesUp(c, s, u, StaleOf(c, s, done), v);
      assert StaleOf(c, s, done + [v]) == StaleOf(c, s, done) + {v};
    } else {
      assert StaleOf(c, s, done + [v]) == StaleOf(c, s, done);
    }
  }

  /** Exactly the reservations of owners that take nobody are given up; every other vehicle keeps its row. */
  ghost predicate StaleCancelled(c: Scenario, s: State, t: State) {
    GaveUp(c, s, t, set v | v in s.agvs && Stale(c, s, v))
  }

  lemma AllStale(c: Scenario, s: State, t: State)
    requires GaveUp(c, s, t, StaleOf(c, s, c.agvIds)) && SetOf(c.agvIds) == s.agvs.Keys
    ensures StaleCancelled(c, s, t)
  {
    hide GaveUp, Stale;
    assert forall v :: v in c.agvIds <==> v in SetOf(c.agvIds);
    StaleListed(c, s);
  }

  lemma StaleListed(c: Scenario, s: State)
    requires SetOf(c.agvIds) == s.agvs.Keys
    ensures StaleOf(c, s, c.agvIds) == set v | v in s.agvs && Stale(c, s, v)
  {
    assert forall v :: v in c.agvIds <==> v in SetOf(c.agvIds);
  }

  // -- starting machines -----------------------------------------------------------------------

  /** The machine is up by the calendar and free for the job: it kept it for this operation, or it is idle and
      the job lies in its PRE; it has the type of the job's next operation and the mode. */
  ghost predicate CouldRun(c: Scenario, s: State, m: MachineId, j: JobId, mode: ModeId) {
    && m in c.machines && m in c.pre && m in s.machines && j in s.jobs && mode in c.machines[m].modes
    && !DownAt(c.outages, m, s.tick) && s.jobs[j].quality != Failed
    && j.demand in c.demands && s.jobs[j].step < |c.demands[j.demand].steps|
    && c.demands[j.demand].steps[s.jobs[j].step].opType in c.machines[m].types
    && if s.machines[m].status.Ready? then s.machines[m].job == Some(j)
       else s.machines[m].status.Idle? && s.jobs[j].loc.Stored? && s.jobs[j].loc.place.owner == c.pre[m]
  }

  lemma CouldRunMeans(c: Scenario, s: State, m: MachineId, j: JobId, mode: ModeId)
    requires WellFormed(c) && Inv(c, s) && Shaped(c, s) && FlagsCurrent(c, s)
    ensures Startable(c, s, m, j, mode) <==> CouldRun(c, s, m, j, mode)
  {
    if m in c.machines {
      assert MachineOk(c, s.jobs, m, s.machines[m]) && FlagCurrent(c, s.machines, m, s.tick) && GoodMachine(c, m);
    }
    if j in s.jobs { assert Located(s.jobs, s.queue, s.storage, s.machines, s.agvs, j); }
    hide WellFormed, Inv, DownAt, FlagsCurrent, Shaped;
  }

  /** The machine runs the job in the mode from now on. */
  ghost predicate RunsNow(c: Scenario, s: State, t: State, m: MachineId, j: JobId, mode: ModeId) {
    && m in s.machines && m in t.machines && j in s.jobs && j in t.jobs
    && t.jobs[j] == s.jobs[j].(loc := AtMachine(m), since := s.tick)
    && t.machines[m] == s.machines[m].(job := Some(j), status := Processing, remaining := t.machines[m].remaining, elapsed := 0,
                                       nominal := t.machines[m].nominal, mode := Some(mode))
    && Durations.Takes(c, j, s.jobs[j].step, m, mode, t.machines[m].remaining, t.machines[m].nominal)
  }

  ghost predicate HasChoice(c: Scenario, s: State, m: MachineId) {
    exists j, mode :: CouldRun(c, s, m, j, mode)
  }

  /** A machine that could run something runs one of its choices, any other is left alone. */
  ghost predicate MachineManned(c: Scenario, s: State, t: State, m: MachineId) {
    if HasChoice(c, s, m) then exists j, mode :: CouldRun(c, s, m, j, mode) && RunsNow(c, s, t, m, j, mode)
    else m in s.machines && m in t.machines && t.machines[m] == s.machines[m]
  }

  /** Jobs are left alone unless a machine runs them now. */
  ghost predicate JobManned(c: Scenario, s: State, t: State, done: set<MachineId>, j: JobId) {
    j in s.jobs && j in t.jobs &&
    (t.jobs[j] == s.jobs[j] || exists m, mode :: m in done && CouldRun(c, s, m, j, mode) && RunsNow(c, s, t, m, j, mode))
  }

  ghost predicate MannedBy(c: Scenario, s: State, t: State, done: set<MachineId>) {
    && t.tick == s.tick && t.machines.Keys == s.machines.Keys && t.jobs.Keys == s.jobs.Keys && t.storage.Keys == s.storage.Keys
    && (forall m {:trigger MachineManned(c, s, t, m)} :: m in s.machines && m in done ==> MachineManned(c, s, t, m))
    && (forall m {:trigger t.machines[m]} :: m in s.machines && m !in done ==> t.machines[m] == s.machines[m])
    && (forall j {:trigger JobManned(c, s, t, done, j)} :: j in s.jobs ==> JobManned(c, s, t, done, j))
  }

  /** Only jobs, machines and storage change. */
  ghost predicate OnlyShop(s: State, t: State) {
    t == s.(jobs := t.jobs, machines := t.machines, storage := t.storage, log := t.log)
  }

  /** Every machine that could run something does. */
  ghost predicate Manned(c: Scenario, s: State, t: State) {
    MannedBy(c, s, t, s.machines.Keys)
  }

  lemma NobodyManned(c: Scenario, s: State)
    ensures MannedBy(c, s, s, {})
  {
    forall j | j in s.jobs ensures JobManned(c, s, s, {}, j) {}
  }

  /** No two machines could run the same job. */
  lemma OwnChoice(c: Scenario, s: State, m: MachineId, x: MachineId, j: JobId, mode: ModeId, other: ModeId)
    requires WellFormed(c) && Inv(c, s) && CouldRun(c, s, m, j, mode) && CouldRun(c, s, x, j, other)
    ensures m == x
  {
    assert GoodMachine(c, m) && GoodMachine(c, x) && MachineNames(s.jobs, s.machines, m) && MachineNames(s.jobs, s.machines, x);
    hide WellFormed, Inv, DownAt;
  }

  /** A machine whose turn has not come has its choices still. */
  lemma ChoiceStill(c: Scenario, s: State, u: State, done: set<MachineId>, m: MachineId, j: JobId, mode: ModeId)
    requires WellFormed(c) && Inv(c, s) && MannedBy(c, s, u, done) && m !in done && m in s.machines
    ensures CouldRun(c, u, m, j, mode) <==> CouldRun(c, s, m, j, mode)
    ensures CouldRun(c, s, m, j, mode) ==> u.jobs[j] == s.jobs[j]
  {
    if j in s.jobs {
      assert JobManned(c, s, u, done, j) && u.machines[m] == s.machines[m];
      if u.jobs[j] != s.jobs[j] {
        var x, other :| x in done && CouldRun(c, s, x, j, other) && RunsNow(c, s, u, x, j, other);
        OtherRuns(c, s, u, m, x, j, mode, other);
      }
    }
    hide WellFormed, Inv, DownAt;
  }

  lemma OtherRuns(c: Scenario, s: State, u: State, m: MachineId, x: MachineId, j: JobId, mode: ModeId, other: ModeId)
    requires WellFormed(c) && Inv(c, s) && m != x && m in s.machines && m in u.machines && u.machines[m] == s.machines[m]
    requires CouldRun(c, s, x, j, other) && RunsNow(c, s, u, x, j, other)
    ensures !CouldRun(c, s, m, j, mode) && !CouldRun(c, u, m, j, mode)
  {
    if CouldRun(c, s, m, j, mode) { OwnChoice(c, s, m, x, j, mode, other); }
    assert MachineNames(s.jobs, s.machines, m) && MachineNames(s.jobs, s.machines, x);
    hide WellFormed, Inv, DownAt;
  }

  /** The other machines and their jobs keep what they got. */
  lemma ManningStays(c: Scenario, s: State, u: State, t: State, done: set<MachineId>, m: MachineId, x: MachineId)
    requires WellFormed(c) && Inv(c, s) && MannedBy(c, s, u, done) && m !in done && x in done && x in s.machines && m in s.machines
    requires t.machines.Keys == u.machines.Keys && t.jobs.Keys == u.jobs.Keys && t.machines[x] == u.machines[x]
    requires forall j, mode :: CouldRun(c, s, x, j, mode) && j in u.jobs ==> t.jobs[j] == u.jobs[j]
    ensures MachineManned(c, s, t, x)
  {
    assert MachineManned(c, s, u, x);
    hide WellFormed, Inv, CouldRun, Durations.Takes;
    if HasChoice(c, s, x) {
      var j, mode :| CouldRun(c, s, x, j, mode) && RunsNow(c, s, u, x, j, mode);
      assert RunsNow(c, s, t, x, j, mode);
    }
  }

  lemma BegunRuns(c: Scenario, s: State, u: State, t: State, m: MachineId, j: JobId, mode: ModeId)
    requires Durations.Begun(c, u, t, m, j, mode) && u.tick == s.tick && m in s.machines && u.machines[m] == s.machines[m] && j in s.jobs && u.jobs[j] == s.jobs[j]
    ensures RunsNow(c, s, t, m, j, mode)
  {
    hide Durations.Takes;
  }

  lemma JobsStay(c: Scenario, s: State, u: State, t: State, done: set<MachineId>, m: MachineId, j: JobId, mode: ModeId, i: JobId)
    requires MannedBy(c, s, u, done) && m !in done && i in s.jobs && Durations.Begun(c, u, t, m, j, mode)
    requires CouldRun(c, s, m, j, mode) && RunsNow(c, s, t, m, j, mode)
    ensures JobManned(c, s, t, done + {m}, i)
  {
    assert JobManned(c, s, u, done, i);
    hide CouldRun, MachineManned, Durations.Takes;
    if i == j { assert m in done + {m}; }
    else if u.jobs[i] != s.jobs[i] {
      var x, other :| x in done && CouldRun(c, s, x, i, other) && RunsNow(c, s, u, x, i, other);
      assert x in done + {m} && RunsNow(c, s, t, x, i, other);
    }
  }

  lemma OthersStay(c: Scenario, s: State, u: State, t: State, done: set<MachineId>, m: MachineId, j: JobId, mode: ModeId, x: MachineId)
    requires WellFormed(c) && Inv(c, s) && MannedBy(c, s, u, done) && m !in done && m in s.machines && x in s.machines && x in done
    requires Durations.Begun(c, u, t, m, j, mode) && CouldRun(c, s, m, j, mode)
    ensures MachineManned(c, s, t, x)
  {
    hide WellFormed, Inv, CouldRun, MachineManned, Durations.Takes;
    forall i, other | CouldRun(c, s, x, i, other) && i in u.jobs ensures t.jobs[i] == u.jobs[i] {
      if i == j { OwnChoice(c, s, m, x, j, mode, other); }
    }
    ManningStays(c, s, u, t, done, m, x);
  }

  /** A machine begins one of its choices. */
  lemma ManOne(c: Scenario, s: State, u: State, t: State, done: set<MachineId>, m: MachineId, j: JobId, mode: ModeId)
    requires WellFormed(c) && Inv(c, s) && MannedBy(c, s, u, done) && m !in done && m in s.machines
    requires CouldRun(c, u, m, j, mode) && Durations.Begun(c, u, t, m, j, mode)
    ensures MannedBy(c, s, t, done + {m})
  {
    hide WellFormed, Inv, CouldRun, MachineManned, JobManned, RunsNow, Durations.Takes;
    ChoiceStill(c, s, u, done, m, j, mode);
    assert u.machines[m] == s.machines[m] && u.tick == s.tick;
    BegunRuns(c, s, u, t, m, j, mode);
    forall x | x in s.machines && x in done + {m} ensures MachineManned(c, s, t, x) {
      if x != m { OthersStay(c, s, u, t, done, m, j, mode, x); } else { ManOwn(c, s, t, m, j, mode); }
    }
    forall i | i in s.jobs ensures JobManned(c, s, t, done + {m}, i) { JobsStay(c, s, u, t, done, m, j, mode, i); }
  }

  lemma ManOwn(c: Scenario, s: State, t: State, m: MachineId, j: JobId, mode: ModeId)
    requires CouldRun(c, s, m, j, mode) && RunsNow(c, s, t, m, j, mode)
    ensures MachineManned(c, s, t, m)
  {
    hide CouldRun, RunsNow;
  }

  /** A machine without a choice is passed over. */
  lemma ManNone(c: Scenario, s: State, u: State, done: set<MachineId>, m: MachineId)
    requires WellFormed(c) && Inv(c, s) && MannedBy(c, s, u, done) && m !in done && m in s.machines
    requires !HasChoice(c, u, m)
    ensures MannedBy(c, s, u, done + {m})
  {
    forall j, mode ensures !CouldRun(c, s, m, j, mode) {
      ChoiceStill(c, s, u, done, m, j, mode);
      assert !CouldRun(c, u, m, j, mode);
    }
    hide WellFormed, Inv, CouldRun, RunsNow;
    forall j | j in s.jobs ensures JobManned(c, s, u, done + {m}, j) { assert JobManned(c, s, u, done, j); }
    forall x | x in s.machines && x in done + {m} ensures MachineManned(c, s, u, x) { if x in done { assert MachineManned(c, s, u, x); } }
  }

  // -- starting services -----------------------------------------------------------------------

  /** The job lies at the buffer and nobody is loading it. */
  ghost predicate Available(s: State, b: BufferId, j: JobId) {
    && j in s.jobs && s.jobs[j].loc.Stored? && s.jobs[j].loc.place.owner == b
    && forall w :: w in s.agvs && s.agvs[w].service.Some? && s.agvs[w].service.value.kind.Pickup? ==> s.agvs[w].service.value.job != j
  }

  /** The vehicles unloading into the slot. */
  ghost function Unloaders(s: State, p: Place): set<AgvId> {
    set w | w in s.agvs && s.agvs[w].service.Some? && s.agvs[w].service.value.kind.DropOff? && s.agvs[w].service.value.place == p
  }

  /** The slot has room for one more job besides those being unloaded into it. */
  ghost predicate RoomAt(c: Scenario, s: State, p: Place) {
    && KnownPlace(c, p) && p in s.storage
    && (c.buffers[p.owner].capacity[p.slot].Some? ==> |s.storage[p]| + |Unloaders(s, p)| < c.buffers[p.owner].capacity[p.slot].value)
  }

  /** What the vehicle came for is there: a job to load, or room for its own. */
  ghost predicate CouldServe(c: Scenario, s: State, v: AgvId) {
    && v in s.agvs && s.agvs[v].target.Some?
    && var b := s.agvs[v].target.value;
       if s.agvs[v].job.None? then exists j :: Available(s, b, j) else exists k :: RoomAt(c, s, Place(b, k))
  }

  /** The vehicle stands at a port of its target and is not serving. */
  ghost predicate AtPort(c: Scenario, s: State, v: AgvId) {
    && v in s.agvs && s.agvs[v].service.None? && s.agvs[v].target.Some?
    && s.agvs[v].target.value in c.ports && s.agvs[v].cell in c.ports[s.agvs[v].target.value]
  }

  /** Whoever stands at its port and could serve there does. */
  ghost predicate ServedOut(c: Scenario, s: State) {
    forall v {:trigger AtPort(c, s, v)} :: AtPort(c, s, v) ==> !CouldServe(c, s, v)
  }

  /** A service fit for the vehicle at its port: loading a job that lies there, or unloading its own into a slot. */
  ghost predicate Fits(c: Scenario, s: State, v: AgvId, x: Service) {
    && AtPort(c, s, v) && x.startedAt == s.tick && x.remaining == 1 && s.agvs[v].target == Some(x.place.owner) && x.place in s.storage
    && if s.agvs[v].job.None? then x.kind.Pickup? && x.job in s.jobs && s.jobs[x.job].loc == Stored(x.place)
       else x.kind.DropOff? && s.agvs[v].job == Some(x.job)
  }

  ghost predicate RowBegan(c: Scenario, s: State, t: State, v: AgvId)
    requires v in s.agvs && v in t.agvs
  {
    t.agvs[v] == s.agvs[v] || exists x :: Fits(c, s, v, x) && t.agvs[v] == s.agvs[v].(service := Some(x))
  }

  /** Vehicles may have begun such services, and nothing else happened. */
  ghost predicate Began(c: Scenario, s: State, t: State) {
    && t == s.(agvs := t.agvs, log := t.log) && t.agvs.Keys == s.agvs.Keys
    && forall v {:trigger RowBegan(c, s, t, v)} :: v in s.agvs ==> RowBegan(c, s, t, v)
  }

  lemma NothingBegan(c: Scenario, s: State)
    ensures Began(c, s, s)
  {
  }

  lemma FitsStill(c: Scenario, s: State, u: State, v: AgvId, x: Service)
    requires Began(c, s, u) && v in s.agvs && Fits(c, u, v, x)
    ensures u.agvs[v] == s.agvs[v] && Fits(c, s, v, x)
  {
    assert RowBegan(c, s, u, v);
  }

  lemma OneBegan(c: Scenario, s: State, u: State, v: AgvId, kind: Kind, j: JobId, p: Place)
    requires Began(c, s, u) && v in s.agvs && v in u.agvs && Fits(c, u, v, Service(kind, j, p, u.tick, 1))
    ensures Began(c, s, Serve(u, v, kind, j, p))
  {
    var x, t := Service(kind, j, p, u.tick, 1), Serve(u, v, kind, j, p);
    FitsStill(c, s, u, v, x);
    hide Fits;
    forall w | w in s.agvs ensures RowBegan(c, s, t, w) { assert RowBegan(c, s, u, w); }
  }

  // -- asking for work -------------------------------------------------------------------------

  /** The owner is one the vehicle may go to with what it carries: any source when it is empty, otherwise a PRE
      whose machine has the type of the job's next operation, or an Output when the job is finished. */
  ghost predicate Suits(c: Scenario, s: State, v: AgvId, b: BufferId)
    requires v in s.agvs
  {
    b in c.buffers &&
    if s.agvs[v].job.None? then c.buffers[b].role.Input? || c.buffers[b].role.Post?
    else
      var j := s.agvs[v].job.value;
      && j in s.jobs && j.demand in c.demands
      && if s.jobs[j].step < |c.demands[j.demand].steps|
         then c.buffers[b].role.Pre? && c.buffers[b].role.machine in c.machines
              && c.demands[j.demand].steps[s.jobs[j].step].opType in c.machines[c.buffers[b].role.machine].types
         else c.buffers[b].role.Output?
  }

  /** The free vehicle can reach a suitable owner that is open and has room for one more commitment. */
  ghost predicate OpenTo(c: Scenario, s: State, v: AgvId, b: BufferId)
    requires WellFormed(c)
  {
    && v in s.agvs && s.agvs[v].target.None? && s.agvs[v].service.None? && v !in s.assignments
    && Suits(c, s, v, b) && c.reaches(s.agvs[v].cell, b) && !Shut(c, s, b) && Vacancy(c, s, b)
  }

  /** The candidates a vehicle is offered are just these owners. */
  lemma OpenMeans(c: Scenario, s: State, v: AgvId, b: BufferId)
    requires WellFormed(c) && Inv(c, s) && Shaped(c, s) && FlagsCurrent(c, s) && Aimed(s.agvs, s.assignments)
    ensures Runs.Candidate(c, s, v, b) <==> OpenTo(c, s, v, b)
  {
    if b in c.buffers {
      ShutMeans(c, s, b);
      Checks.QuotaMeansVacancy(c, s, b);
    }
    hide WellFormed, Inv, Shut, Vacancy, Checks.Quota, Eligible, FlagsCurrent, Aimed, Shaped;
  }

  // -- the whole phase -------------------------------------------------------------------------

  lemma ManningMoves(c: Scenario, s: State, t: State, before: State, after: State, m: MachineId)
    requires before.tick == s.tick && before.jobs == s.jobs && before.machines == s.machines && after.jobs == t.jobs && after.machines == t.machines
    requires MachineManned(c, s, t, m)
    ensures MachineManned(c, before, after, m)
  {
    forall j, mode ensures CouldRun(c, before, m, j, mode) <==> CouldRun(c, s, m, j, mode) {}
    forall j, mode ensures RunsNow(c, before, after, m, j, mode) <==> RunsNow(c, s, t, m, j, mode) {}
    hide CouldRun, RunsNow;
  }

  lemma JobManningMoves(c: Scenario, s: State, t: State, before: State, after: State, done: set<MachineId>, j: JobId)
    requires before.tick == s.tick && before.jobs == s.jobs && before.machines == s.machines && after.jobs == t.jobs && after.machines == t.machines
    requires JobManned(c, s, t, done, j)
    ensures JobManned(c, before, after, done, j)
  {
    forall m, mode ensures CouldRun(c, before, m, j, mode) <==> CouldRun(c, s, m, j, mode) {}
    forall m, mode ensures RunsNow(c, before, after, m, j, mode) <==> RunsNow(c, s, t, m, j, mode) {}
    hide CouldRun, RunsNow;
  }

  /** Vehicles and clocks play no part in who runs what. */
  lemma MannedMoves(c: Scenario, s: State, t: State, before: State, after: State)
    requires Manned(c, s, t) && before.tick == s.tick && after.tick == s.tick
    requires before.jobs == s.jobs && before.machines == s.machines && before.storage == s.storage
    requires after.jobs == t.jobs && after.machines == t.machines && after.storage == t.storage
    ensures Manned(c, before, after)
  {
    hide CouldRun, RunsNow, MachineManned, JobManned;
    forall m | m in before.machines ensures MachineManned(c, before, after, m) {
      assert MachineManned(c, s, t, m);
      ManningMoves(c, s, t, before, after, m);
    }
    forall j | j in before.jobs ensures JobManned(c, before, after, before.machines.Keys, j) {
      assert JobManned(c, s, t, s.machines.Keys, j);
      JobManningMoves(c, s, t, before, after, s.machines.Keys, j);
    }
  }

  /** A vehicle keeps cell and job, and the target and service it had unless its owner took nobody. */
  ghost predicate VehicleKept(c: Scenario, s: State, t: State, v: AgvId) {
    && v in s.agvs && v in t.agvs && t.agvs[v].cell == s.agvs[v].cell && t.agvs[v].job == s.agvs[v].job
    && (s.agvs[v].target.Some? && !Shut(c, s, s.agvs[v].target.value) ==>
          && t.agvs[v].target == s.agvs[v].target && (s.agvs[v].service.Some? ==> t.agvs[v].service == s.agvs[v].service))
  }

  ghost predicate VehiclesKept(c: Scenario, s: State, t: State) {
    t.agvs.Keys == s.agvs.Keys && forall v {:trigger VehicleKept(c, s, t, v)} :: v in s.agvs ==> VehicleKept(c, s, t, v)
  }

  // -- central tasks ---------------------------------------------------------------------------

  /** The job's next stop: a PRE whose machine has the type of its next operation, or an Output when it is
      finished. */
  ghost predicate NextStop(c: Scenario, s: State, j: JobId, b: BufferId) {
    && j in s.jobs && b in c.buffers && j.demand in c.demands
    && if s.jobs[j].step < |c.demands[j.demand].steps|
       then c.buffers[b].role.Pre? && c.buffers[b].role.machine in c.machines
            && c.demands[j.demand].steps[s.jobs[j].step].opType in c.machines[c.buffers[b].role.machine].types
       else c.buffers[b].role.Output?
  }

  ghost predicate Unreserved(s: State, j: JobId) {
    forall w :: w in s.assignments ==> s.assignments[w].job != j
  }

  /** A free vehicle, with the job or able to reach it in an open source, and an open next stop of the job with
      room for one more commitment that it can reach. */
  ghost predicate MayCarry(c: Scenario, s: State, v: AgvId, j: JobId, b: BufferId)
    requires WellFormed(c)
  {
    && c.central && v in s.agvs && s.agvs[v].target.None? && s.agvs[v].service.None? && v !in s.assignments
    && Unreserved(s, j) && NextStop(c, s, j, b) && !Shut(c, s, b) && Vacancy(c, s, b) && c.reaches(s.agvs[v].cell, b)
    && if s.agvs[v].job.Some? then s.agvs[v].job == Some(j)
       else
         && s.jobs[j].loc.Stored?
         && var o := s.jobs[j].loc.place.owner;
            o in c.buffers && (c.buffers[o].role.Input? || c.buffers[o].role.Post?) && !Shut(c, s, o) && c.reaches(s.agvs[v].cell, o)
  }

  /** The transport tasks offered are just these. */
  lemma MayCarryMeans(c: Scenario, s: State, v: AgvId, j: JobId, b: BufferId)
    requires WellFormed(c) && Inv(c, s) && Shaped(c, s) && FlagsCurrent(c, s) && Aimed(s.agvs, s.assignments)
    ensures Runs.Transport(c, s, v, j, b) <==> MayCarry(c, s, v, j, b)
  {
    if b in c.buffers {
      ShutMeans(c, s, b);
      Checks.QuotaMeansVacancy(c, s, b);
    }
    if j in s.jobs && s.jobs[j].loc.Stored? && s.jobs[j].loc.place.owner in c.buffers { ShutMeans(c, s, s.jobs[j].loc.place.owner); }
    hide WellFormed, Inv, Shut, Vacancy, Checks.Quota, Eligible, FlagsCurrent, Aimed, Shaped;
  }

  /** The vehicle got the task and heads for the job, or with it for its destination. */
  ghost predicate Given(s: State, t: State, v: AgvId, j: JobId, b: BufferId) {
    && v in s.agvs && v in t.agvs && j in s.jobs
    && t == s.(agvs := t.agvs, assignments := t.assignments, log := t.log) && t.assignments == s.assignments[v := Assignment(j, b)]
    && t.agvs == s.agvs[v := t.agvs[v]] && t.agvs[v] == s.agvs[v].(target := t.agvs[v].target, arrivedAt := s.tick)
    && (if s.agvs[v].job.Some? then t.agvs[v].target == Some(b)
        else s.jobs[j].loc.Stored? && t.agvs[v].target == Some(s.jobs[j].loc.place.owner))
    && t.log == s.log + [TaskAssigned(s.tick, v, j, b)]
  }

  lemma AssignGives(c: Scenario, s: State, v: AgvId, j: JobId, b: BufferId)
    requires v in s.agvs && j in s.jobs && (s.agvs[v].job.None? ==> s.jobs[j].loc.Stored?)
    ensures Given(s, Assign(c, s, v, j, b), v, j, b)
  {
  }

  /** Nothing of the vehicle's task can be served at the port where it stands. */
  ghost predicate TaskOut(c: Scenario, s: State, v: AgvId) {
    v in s.assignments && AtPort(c, s, v) ==>
      var b := s.agvs[v].target.value;
      if s.agvs[v].job.Some? then forall k :: !RoomAt(c, s, Place(b, k)) else !Available(s, b, s.assignments[v].job)
  }

  /** A task at an available destination stays, with the vehicle on its way as it was, or to the destination once
      it is loaded. */
  ghost predicate TaskKept(c: Scenario, s: State, t: State, v: AgvId) {
    && v in s.agvs && v in t.agvs && t.agvs[v].cell == s.agvs[v].cell && t.agvs[v].job == s.agvs[v].job
    && (v in s.assignments && (s.agvs[v].job.Some? || s.agvs[v].target.Some?)
        && !ServiceTick.Flagged(c, s.machines, s.assignments[v].destination) ==>
          && v in t.assignments && t.assignments[v] == s.assignments[v]
          && t.agvs[v].target == (if s.agvs[v].job.Some? then Some(s.assignments[v].destination) else s.agvs[v].target)
          && (s.agvs[v].service.Some? ==> t.agvs[v].service == s.agvs[v].service))
  }

  ghost predicate SameFlags(s: State, t: State) {
    t.machines.Keys == s.machines.Keys && forall m :: m in s.machines ==> t.machines[m].down == s.machines[m].down
  }

  ghost predicate TasksKept(c: Scenario, s: State, t: State) {
    SameFlags(s, t) && t.agvs.Keys == s.agvs.Keys && forall v {:trigger TaskKept(c, s, t, v)} :: v in s.agvs ==> TaskKept(c, s, t, v)
  }

  lemma FlaggedSame(c: Scenario, s: State, t: State, b: BufferId)
    requires SameFlags(s, t)
    ensures ServiceTick.Flagged(c, s.machines, b) == ServiceTick.Flagged(c, t.machines, b)
  {
  }

  /** Reconciling, from the state itself. */
  lemma TaskedKeeps(c: Scenario, s: State, u: State, t: State, all: set<AgvId>)
    requires TasksKept(c, s, u) && ServiceTick.Tasked(c, u, t, all) && all == u.agvs.Keys
    ensures TasksKept(c, s, t)
  {
    hide ServiceTick.Flagged;
    forall v | v in s.agvs ensures TaskKept(c, s, t, v) {
      assert TaskKept(c, s, u, v) && ServiceTick.TaskRowIf(c, u, t, v in all, v);
      if v in s.assignments { FlaggedSame(c, s, u, s.assignments[v].destination); }
    }
  }

  /** From the phase's start, where a loaded vehicle may still have to be aimed. */
  lemma TaskedFirst(c: Scenario, s: State, t: State, all: set<AgvId>)
    requires ServiceTick.Tasked(c, s, t, all) && all == s.agvs.Keys
    ensures TasksKept(c, s, t)
  {
    hide ServiceTick.Flagged;
    forall v | v in s.agvs ensures TaskKept(c, s, t, v) { assert ServiceTick.TaskRowIf(c, s, t, v in all, v); }
  }

  lemma GivenKeeps(c: Scenario, s: State, u: State, t: State, v: AgvId, j: JobId, b: BufferId)
    requires TasksKept(c, s, u) && Given(u, t, v, j, b) && v !in u.assignments
    ensures TasksKept(c, s, t)
  {
    hide ServiceTick.Flagged;
    forall w | w in s.agvs ensures TaskKept(c, s, t, w) { assert TaskKept(c, s, u, w); }
  }

  lemma BegunKeeps(c: Scenario, s: State, u: State, t: State, m: MachineId, j: JobId, mode: ModeId)
    requires TasksKept(c, s, u) && Durations.Begun(c, u, t, m, j, mode)
    ensures TasksKept(c, s, t)
  {
    hide ServiceTick.Flagged, Durations.Takes;
    forall w | w in s.agvs ensures TaskKept(c, s, t, w) { assert TaskKept(c, s, u, w); }
  }

  lemma BeganKeeps(c: Scenario, s: State, u: State, t: State)
    requires TasksKept(c, s, u) && Began(c, u, t)
    ensures TasksKept(c, s, t)
  {
    hide ServiceTick.Flagged;
    forall w | w in s.agvs ensures TaskKept(c, s, t, w) { assert TaskKept(c, s, u, w) && RowBegan(c, u, t, w); }
  }
}
