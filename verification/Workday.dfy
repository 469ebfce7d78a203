/** What the rest of an interval does, said from the state before it: how far the machines work, which
    demands are released, which queued jobs are let in and where, and which machines let go of their job. */
module Workday {
  import opened Collections
  import opened Availability
  import opened Factory
  import opened Custody
  import opened Safety
  import opened Operations
  import opened Preservation
  import opened Settling
  import opened Physics
  import opened Stepping
  import Driving
  import Movement
  import ServiceTick

  // -- processing ------------------------------------------------------------------------------

  /** A machine that is up works `k` ticks, and is blocked when its time is over. */
  ghost predicate MachineWorked(a: MachineRow, b: MachineRow, k: int) {
    if a.status.Processing? && !a.down
    then b == a.(remaining := a.remaining - k, elapsed := a.elapsed + k, status := if a.remaining == k then Blocked else Processing)
    else b == a
  }

  /** The machine finishes an operation. */
  predicate Finishes(machines: Machines, m: MachineId, k: int) {
    m in machines && machines[m].status.Processing? && !machines[m].down && machines[m].remaining == k
  }

  /** A job in a machine that finished is one operation further, its quality unknown, and spoiled if the draw
      is below the error rate of the mode; any other job is as before. */
  ghost predicate JobWorked(c: Scenario, machines: Machines, done: set<MachineId>, j: JobId, a: JobRow, b: JobRow, k: int) {
    if a.loc.AtMachine? && a.loc.machine in done && Finishes(machines, a.loc.machine, k)
    then
      var m, mode := a.loc.machine, machines[a.loc.machine].mode;
      && mode.Some? && m in c.machines && mode.value in c.machines[m].modes
      && b == a.(step := a.step + 1, quality := Unknown,
                 defective := a.defective || c.qualityDraw(j, a.step) < c.machines[m].modes[mode.value].errorRate)
    else b == a
  }

  /** These machines have worked, and the jobs they finished are one operation further. */
  ghost predicate WorkedAmong(c: Scenario, s: State, t: State, done: set<MachineId>, k: int) {
    && t == s.(machines := t.machines, jobs := t.jobs, log := t.log)
    && t.machines.Keys == s.machines.Keys && t.jobs.Keys == s.jobs.Keys
    && (forall m {:trigger t.machines[m]} :: m in s.machines ==>
          if m in done then MachineWorked(s.machines[m], t.machines[m], k) else t.machines[m] == s.machines[m])
    && (forall j {:trigger t.jobs[j]} :: j in s.jobs ==> JobWorked(c, s.machines, done, j, s.jobs[j], t.jobs[j], k))
  }

  ghost predicate Worked(c: Scenario, s: State, t: State, k: int) {
    WorkedAmong(c, s, t, s.machines.Keys, k)
  }

  lemma AtWork(c: Scenario, s: State, m: MachineId, k: int)
    requires WellFormed(c) && Inv(c, s) && m in c.machines
    ensures m in s.machines && WorkedAmong(c, s, Work(c, s, m, k), {m}, k)
  {
    RunsItsJob(c, s, m);
    WorkIsShopWork(c, s, m, k);
    AtShopWork(c, s, m, k);
    hide Inv, WellFormed, WorkedAmong, ShopWork, Work;
  }

  /** The job in a machine is the machine's job. */
  lemma RunsItsJob(c: Scenario, s: State, m: MachineId)
    requires WellFormed(c) && Inv(c, s) && m in c.machines
    ensures m in s.machines && WorkableRow(c, ShopOf(s), m)
    ensures forall j :: j in s.jobs ==> (s.jobs[j].loc == AtMachine(m) <==> s.machines[m].job == Some(j))
  {
    assert MachineOk(c, s.jobs, m, s.machines[m]) && MachineNames(s.jobs, s.machines, m);
    forall j | j in s.jobs && s.jobs[j].loc == AtMachine(m) ensures s.machines[m].job == Some(j) {
      assert Located(s.jobs, s.queue, s.storage, s.machines, s.agvs, j);
    }
  }

  lemma AtShopWork(c: Scenario, s: State, m: MachineId, k: int)
    requires m in s.machines && WorkableRow(c, ShopOf(s), m)
    requires forall j :: j in s.jobs ==> (s.jobs[j].loc == AtMachine(m) <==> s.machines[m].job == Some(j))
    ensures WorkedAmong(c, s, WithShop(s, ShopWork(c, s.tick, ShopOf(s), m, k)), {m}, k)
  {
  }

  lemma WorkOne(c: Scenario, s: State, u: State, t: State, m: MachineId, done: set<MachineId>, k: int)
    requires WorkedAmong(c, u, t, {m}, k) && m in s.machines && m !in done && WorkedAmong(c, s, u, done, k)
    ensures WorkedAmong(c, s, t, done + {m}, k)
  {
    forall j | j in s.jobs ensures JobWorked(c, s.machines, done + {m}, j, s.jobs[j], t.jobs[j], k) {
      JobsTwice(c, s.machines, u.machines, m, done, j, s.jobs[j], u.jobs[j], t.jobs[j], k);
    }
    hide JobWorked, MachineWorked;
  }

  lemma JobsTwice(c: Scenario, machines: Machines, later: Machines, m: MachineId, done: set<MachineId>, j: JobId, a: JobRow, b: JobRow, d: JobRow, k: int)
    requires m !in done && m in machines && m in later && later[m] == machines[m]
    requires JobWorked(c, machines, done, j, a, b, k) && JobWorked(c, later, {m}, j, b, d, k)
    ensures JobWorked(c, machines, done + {m}, j, a, d, k)
  {
  }

  lemma {:induction false} WorksAmong(c: Scenario, s: State, n: nat, k: int)
    requires WellFormed(c) && Inv(c, s) && n <= |c.machineIds| && Reachable(s, k)
    ensures WorkedAmong(c, s, Works(c, s, n, k), SetOf(c.machineIds[..n]), k)
  {
    hide *;
    if n == 0 {
      NothingWorked(c, s, k);
      NoneYet(c.machineIds);
    } else {
      WorksAmong(c, s, n - 1, k);
      WorksLast(c, s, n, k);
      WorkOne(c, s, Works(c, s, n - 1, k), Works(c, s, n, k), c.machineIds[n - 1], SetOf(c.machineIds[..n - 1]), k);
    }
  }

  lemma NoneYet<T(!new)>(ids: seq<T>)
    ensures SetOf(ids[..0]) == {}
  {
  }

  lemma NothingWorked(c: Scenario, s: State, k: int)
    requires WellFormed(c) && Inv(c, s) && Reachable(s, k)
    ensures Works(c, s, 0, k) == s && WorkedAmong(c, s, s, {}, k)
  {
    hide Inv;
  }

  lemma WorksLast(c: Scenario, s: State, n: nat, k: int)
    requires WellFormed(c) && Inv(c, s) && 0 < n <= |c.machineIds| && Reachable(s, k)
    ensures var m, before := c.machineIds[n - 1], SetOf(c.machineIds[..n - 1]);
            m !in before && before + {m} == SetOf(c.machineIds[..n]) && m in s.machines
            && WorkedAmong(c, Works(c, s, n - 1, k), Works(c, s, n, k), {m}, k)
  {
    hide Inv, Unworked, OnlyWork, ShopWorks, WorkedAmong;
    assert c.machineIds[n - 1] in SetOf(c.machineIds);
    NotEarlier(c.machineIds, n - 1);
    AtWork(c, Works(c, s, n - 1, k), c.machineIds[n - 1], k);
  }

  lemma AllOf<T(!new)>(ids: seq<T>)
    ensures SetOf(ids[..|ids|]) == SetOf(ids)
  {
    assert ids[..|ids|] == ids;
  }

  lemma MachinesListed(c: Scenario, s: State)
    requires WellFormed(c) && Inv(c, s)
    ensures SetOf(c.machineIds) == s.machines.Keys && s.machines.Keys == c.machines.Keys
  {
  }

  lemma WorksWorked(c: Scenario, s: State, k: int)
    requires WellFormed(c) && Inv(c, s) && Reachable(s, k)
    ensures Worked(c, s, Works(c, s, |c.machineIds|, k), k)
  {
    hide Inv, WellFormed, WorkedAmong, Works, Reachable;
    WorksAmong(c, s, |c.machineIds|, k);
    AllOf(c.machineIds);
    MachinesListed(c, s);
  }

  // -- flags -----------------------------------------------------------------------------------

  /** The down flags become those of the calendar. */
  ghost predicate Flown(c: Scenario, s: State, t: State) {
    && t == s.(machines := t.machines, log := t.log) && t.machines.Keys == s.machines.Keys
    && forall m {:trigger t.machines[m]} :: m in s.machines ==> t.machines[m] == s.machines[m].(down := DownAt(c.outages, m, s.tick))
  }

  lemma FlagsFlown(c: Scenario, s: State)
    requires WellFormed(c) && Inv(c, s)
    ensures Flown(c, s, Flags(c, s, |c.machineIds|, false))
  {
    hide Inv, WellFormed, Flags, Flagged;
    MachinesListed(c, s);
    SameButFlags(c, s, |c.machineIds|);
    FlaggedIsFlown(c, s, Flags(c, s, |c.machineIds|, false));
  }

  ghost predicate ButFlags(s: State, t: State) {
    forall m :: m in s.machines && m in t.machines ==> t.machines[m] == s.machines[m].(down := t.machines[m].down)
  }

  lemma FlaggedIsFlown(c: Scenario, s: State, t: State)
    requires SetOf(c.machineIds) == s.machines.Keys && OnlyFlags(s, t) && ButFlags(s, t) && Flagged(c, t.machines, s.tick, |c.machineIds|)
    ensures Flown(c, s, t)
  {
    forall m | m in s.machines ensures t.machines[m].down == DownAt(c.outages, m, s.tick) {
      assert m in SetOf(c.machineIds);
      var i :| 0 <= i < |c.machineIds| && c.machineIds[i] == m;
      assert FlagCurrent(c, t.machines, c.machineIds[i], s.tick);
    }
    hide DownAt;
  }

  lemma {:induction false} SameButFlags(c: Scenario, s: State, n: nat)
    requires WellFormed(c) && Inv(c, s) && n <= |c.machineIds|
    ensures ButFlags(s, Flags(c, s, n, false))
  {
    hide *;
    if n == 0 {
      NoFlags(c, s);
    } else {
      SameButFlags(c, s, n - 1);
      FlagsLast(c, s, n);
      OneFlag(s, Flags(c, s, n - 1, false), c.machineIds[n - 1], DownAt(c.outages, c.machineIds[n - 1], Flags(c, s, n - 1, false).tick));
    }
  }

  lemma NoFlags(c: Scenario, s: State)
    requires WellFormed(c) && Inv(c, s)
    ensures Flags(c, s, 0, false) == s && ButFlags(s, s)
  {
    hide Inv, WellFormed, OnlyFlags, Flagged, FlagsCurrent, ScanAgrees;
  }

  lemma FlagsLast(c: Scenario, s: State, n: nat)
    requires WellFormed(c) && Inv(c, s) && 0 < n <= |c.machineIds|
    ensures var u, m := Flags(c, s, n - 1, false), c.machineIds[n - 1];
            m in s.machines && u.machines.Keys == s.machines.Keys && Flags(c, s, n, false) == SetDown(u, m, DownAt(c.outages, m, u.tick))
  {
    hide Inv, Flagged, FlagsCurrent, ScanAgrees, DownAt, SetDown;
    assert c.machineIds[n - 1] in SetOf(c.machineIds);
    MachinesListed(c, s);
  }

  lemma OneFlag(s: State, u: State, m: MachineId, down: bool)
    requires ButFlags(s, u) && m in u.machines && u.machines.Keys == s.machines.Keys
    ensures ButFlags(s, SetDown(u, m, down))
  {
  }

  // -- releases --------------------------------------------------------------------------------

  /** The demand is due and not released yet. */
  predicate Awaited(c: Scenario, s: State, d: DemandId) {
    d in c.demands && c.demands[d].releaseAt <= s.tick && d !in s.ledger.released
  }

  /** Its next attempt. */
  function NextAttempt(l: Ledger, d: DemandId): JobId {
    Job(d, 1 + if d in l.attempts then l.attempts[d] else 0)
  }

  /** Listed in this order. */
  ghost predicate Before(ids: seq<DemandId>, x: DemandId, y: DemandId) {
    exists i, k :: 0 <= i < k < |ids| && ids[i] == x && ids[k] == y
  }

  predicate Attempted(c: Scenario, s: State, ids: seq<DemandId>, j: JobId) {
    j.demand in ids && Awaited(c, s, j.demand) && j == NextAttempt(s.ledger, j.demand)
  }

  ghost predicate Entered(c: Scenario, s: State, l: Ledger, ids: seq<DemandId>) {
    && l == s.ledger.(released := l.released, attempts := l.attempts)
    && (forall d :: d in l.released <==> d in s.ledger.released || (d in ids && Awaited(c, s, d)))
    && (forall d :: d in l.attempts <==> d in s.ledger.attempts || (d in ids && Awaited(c, s, d)))
    && forall d :: d in l.attempts ==>
         l.attempts[d] == if d in ids && Awaited(c, s, d) then NextAttempt(s.ledger, d).attempt else s.ledger.attempts[d]
  }

  ghost predicate Opened(c: Scenario, s: State, jobs: Rows, ids: seq<DemandId>) {
    && (forall j :: j in jobs <==> j in s.jobs || Attempted(c, s, ids, j))
    && forall j :: j in jobs ==> jobs[j] == if Attempted(c, s, ids, j) then JobRow(0, Queued, s.tick, Unknown, false, false) else s.jobs[j]
  }

  /** Exactly the new attempts, in the order of the list. */
  ghost predicate Lined(c: Scenario, s: State, ids: seq<DemandId>, more: seq<JobId>) {
    && (forall j :: j in more <==> Attempted(c, s, ids, j))
    && forall i, k :: 0 <= i < k < |more| ==> Before(ids, more[i].demand, more[k].demand)
  }

  /** Each awaited demand of the list is released with a new attempt at the end of the queue, in the order of the
      list. */
  ghost predicate LetGo(c: Scenario, s: State, t: State, ids: seq<DemandId>) {
    && t == s.(ledger := t.ledger, jobs := t.jobs, queue := t.queue, log := t.log)
    && Entered(c, s, t.ledger, ids) && Opened(c, s, t.jobs, ids)
    && exists more :: t.queue == s.queue + more && Lined(c, s, ids, more)
  }

  lemma NoneLetGo(c: Scenario, s: State)
    ensures LetGo(c, s, s, [])
  {
    assert s.queue == s.queue + [] && Lined(c, s, [], []);
  }

  lemma OneLetGo(c: Scenario, s: State, u: State, t: State, ids: seq<DemandId>, d: DemandId)
    requires LetGo(c, s, u, ids) && d !in ids && d in c.demands && t == ReleaseDemand(c, u, d)
    ensures LetGo(c, s, t, ids + [d])
  {
    ReleasedRow(c, s, u, t, ids, d);
    OneEntered(c, s, u.ledger, ids, d);
    OneOpened(c, s, u.jobs, ids, d);
    hide Opened, Entered, ReleaseDemand;
    var more :| u.queue == s.queue + more && Lined(c, s, ids, more);
    var longer := if Awaited(c, s, d) then more + [NextAttempt(s.ledger, d)] else more;
    MoreLined(c, s, ids, d, more);
    hide Lined;
    assert t.queue == s.queue + longer;
  }

  lemma ReleasedRow(c: Scenario, s: State, u: State, t: State, ids: seq<DemandId>, d: DemandId)
    requires u.tick == s.tick && Entered(c, s, u.ledger, ids) && d !in ids && d in c.demands && t == ReleaseDemand(c, u, d)
    ensures t == u.(ledger := t.ledger, jobs := t.jobs, queue := t.queue, log := t.log)
    ensures if Awaited(c, s, d)
            then
              && t.ledger == u.ledger.(released := u.ledger.released + {d}, attempts := u.ledger.attempts[d := NextAttempt(s.ledger, d).attempt])
              && t.jobs == u.jobs[NextAttempt(s.ledger, d) := JobRow(0, Queued, s.tick, Unknown, false, false)]
              && t.queue == u.queue + [NextAttempt(s.ledger, d)]
            else t == u
  {
    assert d in u.ledger.attempts <==> d in s.ledger.attempts;
  }

  lemma OneEntered(c: Scenario, s: State, l: Ledger, ids: seq<DemandId>, d: DemandId)
    requires Entered(c, s, l, ids) && d !in ids
    ensures Entered(c, s, if Awaited(c, s, d)
                          then l.(released := l.released + {d}, attempts := l.attempts[d := NextAttempt(s.ledger, d).attempt]) else l, ids + [d])
  {
    assert forall x :: x in ids + [d] <==> x in ids || x == d;
    hide NextAttempt, Awaited;
  }

  lemma OneOpened(c: Scenario, s: State, jobs: Rows, ids: seq<DemandId>, d: DemandId)
    requires Opened(c, s, jobs, ids) && d !in ids
    ensures Opened(c, s, if Awaited(c, s, d) then jobs[NextAttempt(s.ledger, d) := JobRow(0, Queued, s.tick, Unknown, false, false)] else jobs, ids + [d])
  {
    assert forall x :: x in ids + [d] <==> x in ids || x == d;
    assert NextAttempt(s.ledger, d).demand == d;
    assert forall j :: Attempted(c, s, ids + [d], j) <==> Attempted(c, s, ids, j) || (Awaited(c, s, d) && j == NextAttempt(s.ledger, d));
    hide NextAttempt, Awaited, Attempted;
  }

  lemma MoreLined(c: Scenario, s: State, ids: seq<DemandId>, d: DemandId, more: seq<JobId>)
    requires d !in ids && Lined(c, s, ids, more)
    ensures Lined(c, s, ids + [d], if Awaited(c, s, d) then more + [NextAttempt(s.ledger, d)] else more)
  {
    var longer := if Awaited(c, s, d) then more + [NextAttempt(s.ledger, d)] else more;
    assert forall x :: x in ids + [d] <==> x in ids || x == d;
    forall i, k | 0 <= i < k < |longer| ensures Before(ids + [d], longer[i].demand, longer[k].demand) {
      if k < |more| {
        assert Before(ids, more[i].demand, more[k].demand);
        var a, b :| 0 <= a < b < |ids| && ids[a] == more[i].demand && ids[b] == more[k].demand;
        assert (ids + [d])[a] == more[i].demand && (ids + [d])[b] == more[k].demand;
      } else {
        assert more[i] in more && Attempted(c, s, ids, more[i]);
        var a :| 0 <= a < |ids| && ids[a] == more[i].demand;
        assert (ids + [d])[a] == more[i].demand && (ids + [d])[|ids|] == d;
      }
    }
  }

  lemma {:induction false} ReleasesLetGo(c: Scenario, s: State, n: nat)
    requires WellFormed(c) && Inv(c, s) && n <= |c.demandIds|
    ensures LetGo(c, s, Releases(c, s, n), c.demandIds[..n])
  {
    hide *;
    if n == 0 {
      NoReleases(c, s);
      NoneLetGo(c, s);
    } else {
      ReleasesLetGo(c, s, n - 1);
      ReleasesLast(c, s, n);
      OneLetGo(c, s, Releases(c, s, n - 1), Releases(c, s, n), c.demandIds[..n - 1], c.demandIds[n - 1]);
    }
  }

  lemma NoReleases(c: Scenario, s: State)
    requires WellFormed(c) && Inv(c, s)
    ensures Releases(c, s, 0) == s && c.demandIds[..0] == []
  {
    hide Inv, ReleasedTo;
  }

  lemma ReleasesLast(c: Scenario, s: State, n: nat)
    requires WellFormed(c) && Inv(c, s) && 0 < n <= |c.demandIds|
    ensures var d := c.demandIds[n - 1];
            && d in c.demands && d !in c.demandIds[..n - 1] && c.demandIds[..n] == c.demandIds[..n - 1] + [d]
            && Releases(c, s, n) == ReleaseDemand(c, Releases(c, s, n - 1), d)
  {
    hide Inv, ReleasedTo, ReleaseDemand;
    assert c.demandIds[n - 1] in SetOf(c.demandIds);
    NotEarlier(c.demandIds, n - 1);
  }

  // -- admission -------------------------------------------------------------------------------

  /** Which of the jobs are in the slot. */
  function Arrived(queue: seq<JobId>, jobs: Rows, p: Place): seq<JobId> {
    if queue == [] then []
    else
      var n := |queue| - 1;
      Arrived(queue[..n], jobs, p) + if queue[n] in jobs && jobs[queue[n]].loc == Stored(p) then [queue[n]] else []
  }

  /** Which of the jobs still wait. */
  function Waiting(queue: seq<JobId>, jobs: Rows): seq<JobId> {
    if queue == [] then []
    else
      var n := |queue| - 1;
      Waiting(queue[..n], jobs) + if queue[n] in jobs && jobs[queue[n]].loc.Queued? then [queue[n]] else []
  }

  /** `n` jobs fill the slot. */
  ghost predicate Fills(c: Scenario, p: Place, n: nat) {
    KnownPlace(c, p) && c.buffers[p.owner].capacity[p.slot].Some? && n >= c.buffers[p.owner].capacity[p.slot].value
  }

  /** The slot is full by the time the job at position `i` of the queue is examined. */
  ghost predicate FullBy(c: Scenario, s: State, t: State, i: nat, p: Place)
    requires i <= |s.queue|
  {
    p in s.storage && Fills(c, p, |s.storage[p]| + |Arrived(s.queue[..i], t.jobs, p)|)
  }

  /** The job went into the first slot of its Input that was not full, or waits since all were full. */
  ghost predicate Examined(c: Scenario, s: State, t: State, i: nat)
    requires i < |s.queue|
  {
    var j := s.queue[i];
    && j in s.jobs && j in t.jobs && j.demand in c.demands && c.demands[j.demand].input in c.buffers
    && var b := c.demands[j.demand].input;
       var slots := c.buffers[b].sorted;
       || (t.jobs[j] == s.jobs[j] && forall k :: k in slots ==> FullBy(c, s, t, i, Place(b, k)))
       || exists x: nat :: x < |slots| && t.jobs[j] == s.jobs[j].(loc := Stored(Place(b, slots[x])), since := s.tick)
                           && !FullBy(c, s, t, i, Place(b, slots[x])) && forall y :: 0 <= y < x ==> FullBy(c, s, t, i, Place(b, slots[y]))
  }

  /** Every list has got, at its end and in their order, those of the jobs that went there. */
  ghost predicate Shelved(before: Lists, after: Lists, queue: seq<JobId>, jobs: Rows) {
    after.Keys == before.Keys && forall p :: p in before ==> after[p] == before[p] + Arrived(queue, jobs, p)
  }

  /** The first `n` jobs of the queue have been examined. */
  ghost predicate ExaminedTo(c: Scenario, s: State, t: State, n: nat) {
    && n <= |s.queue| && t == s.(queue := t.queue, storage := t.storage, jobs := t.jobs, log := t.log)
    && (forall i {:trigger Examined(c, s, t, i)} :: 0 <= i < n ==> Examined(c, s, t, i))
    && t.jobs.Keys == s.jobs.Keys && (forall j :: j in s.jobs && j !in s.queue[..n] ==> t.jobs[j] == s.jobs[j])
    && Shelved(s.storage, t.storage, s.queue[..n], t.jobs)
    && t.queue == Waiting(s.queue[..n], t.jobs) + s.queue[n..]
  }

  /** First come, first served: the queue is examined in order, and what is not let in keeps its order. */
  ghost predicate LetIn(c: Scenario, s: State, t: State) {
    ExaminedTo(c, s, t, |s.queue|)
  }

  ghost predicate OnlyRow(jobs: Rows, later: Rows, j: JobId) {
    j in jobs && j in later && later == jobs[j := later[j]]
  }

  lemma {:induction false} ArrivedBefore(queue: seq<JobId>, jobs: Rows, later: Rows, p: Place)
    requires forall j :: j in queue ==> (j in jobs <==> j in later) && (j in jobs ==> later[j].loc == jobs[j].loc)
    ensures Arrived(queue, later, p) == Arrived(queue, jobs, p) && Waiting(queue, later) == Waiting(queue, jobs)
  {
    if queue != [] { ArrivedBefore(queue[..|queue| - 1], jobs, later, p); }
  }

  /** The place is in `prefix + [j]`'s lists as before unless `j` goes there. */
  lemma ArrivedNext(queue: seq<JobId>, n: nat, jobs: Rows, later: Rows, p: Place)
    requires n < |queue| && NoDup(queue) && OnlyRow(jobs, later, queue[n])
    ensures Arrived(queue[..n], later, p) == Arrived(queue[..n], jobs, p)
    ensures Arrived(queue[..n + 1], later, p) == Arrived(queue[..n], jobs, p) + Arrived([queue[n]], later, p)
    ensures Waiting(queue[..n], later) == Waiting(queue[..n], jobs)
    ensures Waiting(queue[..n + 1], later) == Waiting(queue[..n], jobs) + Waiting([queue[n]], later)
  {
    NotEarlier(queue, n);
    assert queue[..n + 1][..n] == queue[..n];
    ArrivedBefore(queue[..n], jobs, later, p);
  }

  lemma FullByThen(c: Scenario, s: State, u: State, n: nat, p: Place)
    requires ExaminedTo(c, s, u, n) && KnownPlace(c, p) && p in s.storage
    ensures FullBy(c, s, u, n, p) <==> FullPlace(c, u.storage, p)
  {
  }

  /** What was examined before the job at `n` does not depend on it. */
  lemma StillExamined(c: Scenario, s: State, u: State, t: State, n: nat, i: nat)
    requires i < n < |s.queue| && NoDup(s.queue) && OnlyRow(u.jobs, t.jobs, s.queue[n]) && Examined(c, s, u, i)
    ensures Examined(c, s, t, i)
  {
    NoDupIndex(s.queue, i, n);
    forall p ensures FullBy(c, s, t, i, p) == FullBy(c, s, u, i, p) { SameArrivals(s, u, t, n, i, p); }
    hide FullBy;
    var b := c.demands[s.queue[i].demand].input;
    var slots := c.buffers[b].sorted;
    if !(u.jobs[s.queue[i]] == s.jobs[s.queue[i]] && forall k :: k in slots ==> FullBy(c, s, u, i, Place(b, k))) {
      var x: nat :| x < |slots| && u.jobs[s.queue[i]] == s.jobs[s.queue[i]].(loc := Stored(Place(b, slots[x])), since := s.tick)
                    && !FullBy(c, s, u, i, Place(b, slots[x])) && forall y :: 0 <= y < x ==> FullBy(c, s, u, i, Place(b, slots[y]));
      assert !FullBy(c, s, t, i, Place(b, slots[x]));
    }
  }

  lemma SameArrivals(s: State, u: State, t: State, n: nat, i: nat, p: Place)
    requires i <= n < |s.queue| && NoDup(s.queue) && OnlyRow(u.jobs, t.jobs, s.queue[n])
    ensures Arrived(s.queue[..i], t.jobs, p) == Arrived(s.queue[..i], u.jobs, p)
  {
    forall j | j in s.queue[..i] ensures j != s.queue[n] {
      var k :| 0 <= k < i && s.queue[k] == j;
      NoDupIndex(s.queue, k, n);
    }
    ArrivedBefore(s.queue[..i], u.jobs, t.jobs, p);
  }

  /** The job at `n` is examined, and either stays where it is or goes into a slot. */
  lemma OneExamined(c: Scenario, s: State, u: State, t: State, n: nat)
    requires ExaminedTo(c, s, u, n) && n < |s.queue| && NoDup(s.queue)
    requires t == u.(queue := t.queue, storage := t.storage, jobs := t.jobs, log := t.log) && OnlyRow(u.jobs, t.jobs, s.queue[n])
    requires Shelved(u.storage, t.storage, [s.queue[n]], t.jobs)
    requires t.queue == Waiting(s.queue[..n], u.jobs) + Waiting([s.queue[n]], t.jobs) + s.queue[n + 1..]
    requires Examined(c, s, t, n)
    ensures ExaminedTo(c, s, t, n + 1)
  {
    var j := s.queue[n];
    forall i | 0 <= i < n + 1 ensures Examined(c, s, t, i) { if i < n { StillExamined(c, s, u, t, n, i); } }
    hide Examined, Arrived, Waiting;
    ShelvedNext(s.storage, u.storage, t.storage, s.queue, n, u.jobs, t.jobs);
    hide Shelved;
    ArrivedNext(s.queue, n, u.jobs, t.jobs, Place(0, 0));
    assert s.queue[..n + 1] == s.queue[..n] + [j];
  }

  lemma ShelvedNext(before: Lists, middle: Lists, after: Lists, queue: seq<JobId>, n: nat, jobs: Rows, later: Rows)
    requires n < |queue| && NoDup(queue) && OnlyRow(jobs, later, queue[n])
    requires Shelved(before, middle, queue[..n], jobs) && Shelved(middle, after, [queue[n]], later)
    ensures Shelved(before, after, queue[..n + 1], later)
  {
    hide Arrived;
    forall p | p in before ensures after[p] == before[p] + Arrived(queue[..n + 1], later, p) { ArrivedNext(queue, n, jobs, later, p); }
  }

  lemma {:induction false} FirstRoomIsFirst(c: Scenario, storage: Lists, b: BufferId, slots: seq<SlotId>) returns (x: nat)
    requires b in c.buffers && forall k :: k in slots ==> k in c.buffers[b].capacity && Place(b, k) in storage
    requires FirstRoom(c, storage, b, slots).Some?
    ensures x < |slots| && FirstRoom(c, storage, b, slots) == Some(slots[x]) && HasRoom(c, storage, Place(b, slots[x]))
    ensures forall y :: 0 <= y < x ==> FullPlace(c, storage, Place(b, slots[y]))
  {
    assert slots[0] in slots;
    if HasRoom(c, storage, Place(b, slots[0])) {
      x := 0;
    } else {
      var z := FirstRoomIsFirst(c, storage, b, slots[1..]);
      x := z + 1;
      forall y | 0 <= y < x ensures FullPlace(c, storage, Place(b, slots[y])) {
        if y > 0 { assert slots[y] == slots[1..][y - 1]; }
      }
    }
  }

  /** `Free` is the first slot that is not full. */
  lemma FreeIsFirst(c: Scenario, s: State, b: BufferId) returns (x: nat)
    requires WellFormed(c) && Shaped(c, s) && b in c.buffers && Free(c, s, b).Some?
    ensures var slots := c.buffers[b].sorted;
            && (forall k :: k in slots ==> KnownPlace(c, Place(b, k)) && Place(b, k) in s.storage)
            && x < |slots| && Free(c, s, b) == Some(slots[x]) && !FullPlace(c, s.storage, Place(b, slots[x]))
            && forall y :: 0 <= y < x ==> FullPlace(c, s.storage, Place(b, slots[y]))
  {
    assert GoodBuffer(c, b);
    forall k | k in c.buffers[b].sorted ensures KnownPlace(c, Place(b, k)) && Place(b, k) in s.storage { assert KnownPlace(c, Place(b, k)); }
    x := FirstRoomIsFirst(c, s.storage, b, c.buffers[b].sorted);
  }

  lemma NothingShelved(storage: Lists, jobs: Rows, j: JobId)
    requires j in jobs && jobs[j].loc.Queued?
    ensures Shelved(storage, storage, [j], jobs) && Waiting([j], jobs) == [j]
  {
  }

  lemma OneShelved(storage: Lists, jobs: Rows, j: JobId, p: Place)
    requires j in jobs && jobs[j].loc == Stored(p) && p in storage
    ensures Shelved(storage, storage[p := storage[p] + [j]], [j], jobs) && Waiting([j], jobs) == []
  {
    assert Waiting([j], jobs) == [] + [];
    forall q ensures Arrived([j], jobs, q) == if q == p then [j] else [] { assert Arrived([j], jobs, q) == [] + if q == p then [j] else []; }
  }

  /** The job and its Input are those of the scenario. */
  ghost predicate QueuedAt(c: Scenario, s: State, n: nat) {
    n < |s.queue| && NoDup(s.queue) && s.queue[n] in s.jobs && s.queue[n].demand in c.demands && c.demands[s.queue[n].demand].input in c.buffers
  }

  function InputOf(c: Scenario, s: State, n: nat): BufferId
    requires QueuedAt(c, s, n)
  {
    c.demands[s.queue[n].demand].input
  }

  /** The job at `n` waits: all slots are full. */
  lemma OneStays(c: Scenario, s: State, u: State, n: nat)
    requires ExaminedTo(c, s, u, n) && QueuedAt(c, s, n) && s.queue[n] in u.jobs && u.jobs[s.queue[n]].loc.Queued?
    requires forall k :: k in c.buffers[InputOf(c, s, n)].sorted ==> FullBy(c, s, u, n, Place(InputOf(c, s, n), k))
    ensures ExaminedTo(c, s, u, n + 1)
  {
    var j := s.queue[n];
    NotEarlier(s.queue, n);
    hide FullBy, NoDup, Waiting, Shelved;
    assert u.jobs[j] == s.jobs[j] by { assert j !in s.queue[..n]; }
    var b := c.demands[j.demand].input;
    forall k | k in c.buffers[b].sorted ensures FullBy(c, s, u, n, Place(b, k)) { assert InputOf(c, s, n) == b; }
    assert Examined(c, s, u, n);
    NothingShelved(u.storage, u.jobs, j);
    hide Examined;
    assert s.queue[n..] == [j] + s.queue[n + 1..];
    OneExamined(c, s, u, u, n);
  }

  lemma CrammedIsFull(c: Scenario, s: State, u: State, n: nat, b: BufferId)
    requires WellFormed(c) && ExaminedTo(c, s, u, n) && b in c.buffers && Crammed(c, u.storage, b)
    ensures forall k :: k in c.buffers[b].sorted ==> FullBy(c, s, u, n, Place(b, k))
  {
    assert GoodBuffer(c, b);
    hide ExaminedTo, FullBy;
    forall k | k in c.buffers[b].sorted ensures FullBy(c, s, u, n, Place(b, k)) {
      assert KnownPlace(c, Place(b, k)) && FullPlace(c, u.storage, Place(b, k));
      ExaminedKeys(c, s, u, n);
      FullByThen(c, s, u, n, Place(b, k));
    }
  }

  lemma ExaminedKeys(c: Scenario, s: State, u: State, n: nat)
    requires ExaminedTo(c, s, u, n)
    ensures n <= |s.queue| && u.storage.Keys == s.storage.Keys && u.jobs.Keys == s.jobs.Keys
  {
  }

  /** The job at `n` goes into the first slot that is not full. */
  lemma OneGoesIn(c: Scenario, s: State, u: State, t: State, n: nat, x: nat)
    requires ExaminedTo(c, s, u, n) && QueuedAt(c, s, n) && x < |c.buffers[InputOf(c, s, n)].sorted|
    requires var p := Place(InputOf(c, s, n), c.buffers[InputOf(c, s, n)].sorted[x]);
             && p in u.storage && s.queue[n] in u.jobs
             && t == AdmitJob(u, s.queue[n], p, Waiting(s.queue[..n], u.jobs) + s.queue[n + 1..])
    requires forall y :: 0 <= y <= x ==> (FullBy(c, s, u, n, Place(InputOf(c, s, n), c.buffers[InputOf(c, s, n)].sorted[y])) <==> y < x)
    ensures ExaminedTo(c, s, t, n + 1)
  {
    var j, b := s.queue[n], InputOf(c, s, n);
    var slots := c.buffers[b].sorted;
    NotEarlier(s.queue, n);
    OneShelved(u.storage, t.jobs, j, Place(b, slots[x]));
    hide Waiting, Shelved;
    forall y | 0 <= y <= x ensures FullBy(c, s, t, n, Place(b, slots[y])) <==> y < x {
      SameArrivals(s, u, t, n, n, Place(b, slots[y]));
    }
    hide FullBy, NoDup;
    assert Examined(c, s, t, n);
    hide Examined;
    OneExamined(c, s, u, t, n);
  }

  lemma FirstIsOpen(c: Scenario, s: State, u: State, n: nat, b: BufferId) returns (x: nat)
    requires WellFormed(c) && Shaped(c, u) && ExaminedTo(c, s, u, n) && b in c.buffers && Free(c, u, b).Some?
    ensures x < |c.buffers[b].sorted| && Free(c, u, b) == Some(c.buffers[b].sorted[x]) && Place(b, c.buffers[b].sorted[x]) in u.storage
    ensures forall y :: 0 <= y <= x ==> (FullBy(c, s, u, n, Place(b, c.buffers[b].sorted[y])) <==> y < x)
  {
    hide ExaminedTo, FullBy, Free, Shaped, WellFormed;
    x := FreeIsFirst(c, u, b);
    var slots := c.buffers[b].sorted;
    ExaminedKeys(c, s, u, n);
    forall y | 0 <= y <= x ensures FullBy(c, s, u, n, Place(b, slots[y])) <==> y < x {
      assert slots[y] in slots;
      FullByThen(c, s, u, n, Place(b, slots[y]));
    }
  }

  /** The loop has come to position `n` of the queue. */
  ghost predicate Examining(c: Scenario, s: State, u: State, kept: seq<JobId>, rest: seq<JobId>, full: set<BufferId>, n: nat) {
    && WellFormed(c) && Inv(c, u) && u.queue == kept + rest && AllStuck(c, u.storage, kept)
    && (forall b :: b in full ==> Crammed(c, u.storage, b))
    && n <= |s.queue| && ExaminedTo(c, s, u, n) && NoDup(s.queue) && kept == Waiting(s.queue[..n], u.jobs) && rest == s.queue[n..]
  }

  lemma ExaminingNext(c: Scenario, s: State, u: State, kept: seq<JobId>, rest: seq<JobId>, full: set<BufferId>, n: nat)
    requires Examining(c, s, u, kept, rest, full, n) && rest != []
    ensures QueuedAt(c, s, n) && rest[0] == s.queue[n] && rest[1..] == s.queue[n + 1..] && rest[0] in u.jobs && u.jobs[rest[0]].loc.Queued?
    ensures WellFormed(c) && Shaped(c, u) && n < |s.queue| && InputOf(c, s, n) in c.buffers
  {
    QueuedJob(c, u, kept, rest);
    ExaminedKeys(c, s, u, n);
    hide ExaminedTo, Waiting;
  }

  lemma AdmitWaits(c: Scenario, s: State, u: State, kept: seq<JobId>, rest: seq<JobId>, full: set<BufferId>, n: nat)
    requires Examining(c, s, u, kept, rest, full, n) && rest != [] && QueuedAt(c, s, n) && Shaped(c, u)
    requires Free(c, u, InputOf(c, s, n)).None? || InputOf(c, s, n) in full
    ensures Examining(c, s, u, kept + [rest[0]], rest[1..], full + {InputOf(c, s, n)}, n + 1)
    ensures Admit(c, u, kept, rest, full) == Admit(c, u, kept + [rest[0]], rest[1..], full + {InputOf(c, s, n)})
  {
    ExaminingNext(c, s, u, kept, rest, full, n);
    CrammedIsFull(c, s, u, n, InputOf(c, s, n));
    OneStays(c, s, u, n);
    WaitingNext(s.queue, n, u.jobs);
    hide ExaminedTo, Inv, Waiting, NoDup, Crammed;
    AllStuckAppend(c, u.storage, kept, rest[0]);
    hide AllStuck;
    assert u.queue == (kept + [rest[0]]) + rest[1..];
  }

  lemma AdmitTakes(c: Scenario, s: State, u: State, t: State, kept: seq<JobId>, rest: seq<JobId>, full: set<BufferId>, n: nat)
    requires Examining(c, s, u, kept, rest, full, n) && rest != [] && QueuedAt(c, s, n) && Shaped(c, u)
    requires Free(c, u, InputOf(c, s, n)).Some? && InputOf(c, s, n) !in full
    requires rest[0] in u.jobs && Place(InputOf(c, s, n), Free(c, u, InputOf(c, s, n)).value) in u.storage
    requires t == AdmitJob(u, rest[0], Place(InputOf(c, s, n), Free(c, u, InputOf(c, s, n)).value), kept + rest[1..])
    ensures Examining(c, s, t, kept, rest[1..], full, n + 1)
    ensures Admit(c, u, kept, rest, full) == Admit(c, t, kept, rest[1..], full)
  {
    var x := GoesInNext(c, s, u, t, kept, rest, full, n);
    TakenIn(c, u, t, rest[0], Place(InputOf(c, s, n), Free(c, u, InputOf(c, s, n)).value), kept, rest, full);
    hide ExaminedTo, Inv, Waiting, NoDup, Crammed, AllStuck, Free, Shaped, WellFormed, AdmitJob;
  }

  lemma TakenIn(c: Scenario, u: State, t: State, j: JobId, p: Place, kept: seq<JobId>, rest: seq<JobId>, full: set<BufferId>)
    requires WellFormed(c) && Inv(c, u) && u.queue == kept + rest && AllStuck(c, u.storage, kept) && rest != [] && j == rest[0]
    requires forall b :: b in full ==> Crammed(c, u.storage, b)
    requires j in u.jobs && p in u.storage && t == AdmitJob(u, j, p, kept + rest[1..])
    requires j.demand in c.demands && c.demands[j.demand].input in c.buffers
             && var b := c.demands[j.demand].input; p.owner == b && Free(c, u, b) == Some(p.slot) && b !in full
    ensures Inv(c, t) && t.queue == kept + rest[1..] && AllStuck(c, t.storage, kept) && forall b :: b in full ==> Crammed(c, t.storage, b)
    ensures Admit(c, u, kept, rest, full) == Admit(c, t, kept, rest[1..], full)
  {
    QueuedJob(c, u, kept, rest);
    AdmitKeeps(c, u, j, p, kept + rest[1..]);
    AdmitFrame(u, j, p, kept + rest[1..]);
    StillFull(c, u, t, kept, full);
    hide Inv, Crammed, AllStuck, WellFormed, NoDup;
  }

  lemma GoesInNext(c: Scenario, s: State, u: State, t: State, kept: seq<JobId>, rest: seq<JobId>, full: set<BufferId>, n: nat) returns (x: nat)
    requires Examining(c, s, u, kept, rest, full, n) && rest != [] && QueuedAt(c, s, n) && Shaped(c, u)
    requires Free(c, u, InputOf(c, s, n)).Some? && rest[0] in u.jobs && Place(InputOf(c, s, n), Free(c, u, InputOf(c, s, n)).value) in u.storage
    requires t == AdmitJob(u, rest[0], Place(InputOf(c, s, n), Free(c, u, InputOf(c, s, n)).value), kept + rest[1..])
    ensures rest[0] == s.queue[n] && n + 1 <= |s.queue| && rest[1..] == s.queue[n + 1..]
    ensures ExaminedTo(c, s, t, n + 1) && kept == Waiting(s.queue[..n + 1], t.jobs)
  {
    var j, b := rest[0], InputOf(c, s, n);
    ExaminingNext(c, s, u, kept, rest, full, n);
    hide Inv, Crammed, AllStuck;
    x := FirstIsOpen(c, s, u, n, b);
    hide Free, Shaped, WellFormed;
    OneGoesIn(c, s, u, t, n, x);
    ArrivedNext(s.queue, n, u.jobs, t.jobs, Place(b, 0));
    OneShelved(u.storage, t.jobs, j, Place(b, c.buffers[b].sorted[x]));
    hide ExaminedTo, Waiting, NoDup;
  }

  lemma AdmitEnds(c: Scenario, s: State, u: State, kept: seq<JobId>, full: set<BufferId>, n: nat)
    requires Examining(c, s, u, kept, [], full, n)
    ensures LetIn(c, s, u) && Admit(c, u, kept, [], full) == u
  {
    hide ExaminedTo, Inv;
  }

  lemma {:induction false} AdmitLetsIn(c: Scenario, s: State, u: State, kept: seq<JobId>, rest: seq<JobId>, full: set<BufferId>, n: nat)
    requires Examining(c, s, u, kept, rest, full, n)
    ensures LetIn(c, s, Admit(c, u, kept, rest, full))
    decreases |rest|
  {
    hide ExaminedTo, Inv, Waiting, NoDup, Crammed, AllStuck, Free, Shaped, WellFormed, Admit, LetIn, QueuedAt, AdmitJob;
    if rest == [] {
      AdmitEnds(c, s, u, kept, full, n);
    } else {
      ExaminingNext(c, s, u, kept, rest, full, n);
      var b := InputOf(c, s, n);
      hide Examining;
      if Free(c, u, b).None? || b in full {
        AdmitWaits(c, s, u, kept, rest, full, n);
        AdmitLetsIn(c, s, u, kept + [rest[0]], rest[1..], full + {b}, n + 1);
      } else {
        var x := FreeIsFirst(c, u, b);
        var t := AdmitJob(u, rest[0], Place(b, Free(c, u, b).value), kept + rest[1..]);
        AdmitTakes(c, s, u, t, kept, rest, full, n);
        AdmitLetsIn(c, s, t, kept, rest[1..], full, n + 1);
      }
    }
  }

  lemma WaitingNext(queue: seq<JobId>, n: nat, jobs: Rows)
    requires n < |queue| && queue[n] in jobs && jobs[queue[n]].loc.Queued?
    ensures Waiting(queue[..n + 1], jobs) == Waiting(queue[..n], jobs) + [queue[n]]
  {
    assert queue[..n + 1][..n] == queue[..n];
  }

  lemma AllLetIn(c: Scenario, s: State)
    requires WellFormed(c) && Inv(c, s)
    ensures LetIn(c, s, AdmitAll(c, s))
  {
    assert s.queue == [] + s.queue;
    NoneExamined(c, s);
    hide LetIn, Inv, ExaminedTo, Waiting;
    AdmitLetsIn(c, s, s, [], s.queue, {}, 0);
  }

  lemma NoneExamined(c: Scenario, s: State)
    requires WellFormed(c) && Inv(c, s)
    ensures ExaminedTo(c, s, s, 0) && NoDup(s.queue) && Waiting(s.queue[..0], s.jobs) == [] && s.queue[0..] == s.queue
  {
  }

  // -- leaving machines ------------------------------------------------------------------------

  /** The slot at position `x` is the first of the buffer that is not full. */
  ghost predicate FirstOpen(c: Scenario, storage: Lists, b: BufferId, x: nat) {
    && b in c.buffers && x < |c.buffers[b].sorted|
    && forall y :: 0 <= y <= x ==>
         var p := Place(b, c.buffers[b].sorted[y]); p in storage && (Fills(c, p, |storage[p]|) <==> y < x)
  }

  /** What the blocked machine does with its job: keeps it for its next operation here, puts it into the first slot
      of POST that is not full, or goes on waiting. */
  predicate Keeps(c: Scenario, jobs: Rows, m: MachineId, j: JobId) {
    && j in jobs && j.demand in c.demands && m in c.machines && jobs[j].step < |c.demands[j.demand].steps|
    && c.demands[j.demand].steps[jobs[j].step].opType in c.machines[m].types
  }

  ghost predicate LeavesTo(c: Scenario, s: State, m: MachineId, j: JobId, p: Place) {
    && m in s.machines && s.machines[m].status.Blocked? && s.machines[m].job == Some(j) && !Keeps(c, s.jobs, m, j)
    && m in c.post && p.owner == c.post[m]
    && exists x: nat :: FirstOpen(c, s.storage, p.owner, x) && p.slot == c.buffers[p.owner].sorted[x]
  }

  /** It lets go of its job. */
  ghost predicate Leaves(c: Scenario, s: State, m: MachineId, j: JobId) {
    exists p :: LeavesTo(c, s, m, j, p)
  }

  ghost predicate MachineCleared(c: Scenario, s: State, m: MachineId, b: MachineRow)
    requires m in s.machines
  {
    var a := s.machines[m];
    if !a.status.Blocked? || a.job.None? then b == a
    else if Keeps(c, s.jobs, m, a.job.value) then b == a.(status := Ready)
    else if Leaves(c, s, m, a.job.value) then b == a.(job := None, status := Idle, remaining := 0, mode := None)
    else b == a
  }

  ghost predicate JobCleared(c: Scenario, s: State, done: set<MachineId>, j: JobId, b: JobRow)
    requires j in s.jobs
  {
    var a := s.jobs[j];
    if a.loc.AtMachine? && a.loc.machine in done && Leaves(c, s, a.loc.machine, j)
    then b.loc.Stored? && LeavesTo(c, s, a.loc.machine, j, b.loc.place) && b == a.(loc := b.loc, since := s.tick)
    else b == a
  }

  ghost predicate ListCleared(c: Scenario, s: State, done: set<MachineId>, p: Place, q: seq<JobId>)
    requires p in s.storage
  {
    || (q == s.storage[p] && forall m, j :: m in done ==> !LeavesTo(c, s, m, j, p))
    || exists m, j :: m in done && LeavesTo(c, s, m, j, p) && q == s.storage[p] + [j]
  }

  /** These machines have kept or let go of their finished jobs. */
  ghost predicate LetOutAmong(c: Scenario, s: State, t: State, done: set<MachineId>) {
    && t == s.(machines := t.machines, jobs := t.jobs, storage := t.storage, log := t.log)
    && t.machines.Keys == s.machines.Keys && t.jobs.Keys == s.jobs.Keys && t.storage.Keys == s.storage.Keys
    && (forall m {:trigger t.machines[m]} :: m in s.machines ==> if m in done then MachineCleared(c, s, m, t.machines[m]) else t.machines[m] == s.machines[m])
    && (forall j {:trigger t.jobs[j]} :: j in s.jobs ==> JobCleared(c, s, done, j, t.jobs[j]))
    && (forall p {:trigger t.storage[p]} :: p in s.storage ==> ListCleared(c, s, done, p, t.storage[p]))
  }

  ghost predicate LetOut(c: Scenario, s: State, t: State) {
    LetOutAmong(c, s, t, s.machines.Keys)
  }

  lemma CrammedIsFilled(c: Scenario, storage: Lists, b: BufferId, x: nat)
    requires WellFormed(c) && Crammed(c, storage, b) && b in c.buffers && x < |c.buffers[b].sorted|
    ensures var p := Place(b, c.buffers[b].sorted[x]); p in storage && Fills(c, p, |storage[p]|)
  {
    assert GoodBuffer(c, b);
    var p := Place(b, c.buffers[b].sorted[x]);
    assert KnownPlace(c, p) && FullPlace(c, storage, p);
  }

  lemma FreeIsOpening(c: Scenario, s: State, b: BufferId) returns (x: nat)
    requires WellFormed(c) && Shaped(c, s) && b in c.buffers && Free(c, s, b).Some?
    ensures FirstOpen(c, s.storage, b, x) && Free(c, s, b) == Some(c.buffers[b].sorted[x])
  {
    x := FreeIsFirst(c, s, b);
    var slots := c.buffers[b].sorted;
    hide Shaped, WellFormed, Free;
    forall y | 0 <= y <= x ensures Place(b, slots[y]) in s.storage && (Fills(c, Place(b, slots[y]), |s.storage[Place(b, slots[y])]|) <==> y < x) {
      assert slots[y] in slots;
    }
  }

  lemma NoOpening(c: Scenario, s: State, b: BufferId)
    requires WellFormed(c) && Shaped(c, s) && b in c.buffers && Free(c, s, b).None?
    ensures forall x: nat :: !FirstOpen(c, s.storage, b, x)
  {
    forall x: nat ensures !FirstOpen(c, s.storage, b, x) { if x < |c.buffers[b].sorted| { CrammedIsFilled(c, s.storage, b, x); } }
  }

  lemma OneOpening(c: Scenario, storage: Lists, b: BufferId, x: nat, y: nat)
    requires FirstOpen(c, storage, b, x) && x != y
    ensures !FirstOpen(c, storage, b, y)
  {
    var p := Place(b, c.buffers[b].sorted[x]);
    assert p in storage && !Fills(c, p, |storage[p]|);
    if y < x {
      var q := Place(b, c.buffers[b].sorted[y]);
      assert q in storage && Fills(c, q, |storage[q]|);
    }
  }

  // One machine's part.

  lemma LeavesAt(c: Scenario, s: State, m: MachineId, j: JobId) returns (x: nat)
    requires WellFormed(c) && Shaped(c, s) && m in s.machines && m in c.post && c.post[m] in c.buffers
    requires s.machines[m].status.Blocked? && s.machines[m].job == Some(j) && !Keeps(c, s.jobs, m, j)
    ensures Leaves(c, s, m, j) <==> Free(c, s, c.post[m]).Some?
    ensures Leaves(c, s, m, j) ==>
              && FirstOpen(c, s.storage, c.post[m], x) && Free(c, s, c.post[m]) == Some(c.buffers[c.post[m]].sorted[x])
              && forall p :: LeavesTo(c, s, m, j, p) <==> p == Place(c.post[m], c.buffers[c.post[m]].sorted[x])
  {
    x := 0;
    var b := c.post[m];
    if Free(c, s, b).None? {
      NoOpening(c, s, b);
    } else {
      x := FreeIsOpening(c, s, b);
      hide Free, Shaped, WellFormed, Keeps;
      forall p ensures LeavesTo(c, s, m, j, p) <==> p == Place(b, c.buffers[b].sorted[x]) {
        if LeavesTo(c, s, m, j, p) {
          var y: nat :| FirstOpen(c, s.storage, b, y) && p.slot == c.buffers[b].sorted[y];
          if x != y { OneOpening(c, s.storage, b, x, y); }
        }
      }
      assert LeavesTo(c, s, m, j, Place(b, c.buffers[b].sorted[x]));
    }
  }

  lemma UnblockLetsOut(c: Scenario, s: State, m: MachineId)
    requires WellFormed(c) && Inv(c, s) && m in c.machines
    ensures m in s.machines && LetOutAmong(c, s, Unblock(c, s, m), {m})
  {
    assert MachineOk(c, s.jobs, m, s.machines[m]) && GoodMachine(c, m);
    RunsItsJob(c, s, m);
    var a, t := s.machines[m], Unblock(c, s, m);
    if !a.status.Blocked? {
      NoneLetOut(c, s, m);
    } else if Keeps(c, s.jobs, m, a.job.value) {
      KeptIn(c, s, t, m, a.job.value);
    } else {
      var x := LeavesAt(c, s, m, a.job.value);
      if Leaves(c, s, m, a.job.value) {
        ReleasedOut(c, s, m, a.job.value, Place(c.post[m], c.buffers[c.post[m]].sorted[x]));
      } else {
        StillIn(c, s, m, a.job.value);
      }
    }
  }

  lemma NoneLetOut(c: Scenario, s: State, m: MachineId)
    requires m in s.machines && !s.machines[m].status.Blocked?
    ensures LetOutAmong(c, s, s, {m})
  {
    hide Keeps, FirstOpen;
  }

  lemma StillIn(c: Scenario, s: State, m: MachineId, j: JobId)
    requires m in s.machines && s.machines[m].status.Blocked? && s.machines[m].job == Some(j) && !Keeps(c, s.jobs, m, j) && !Leaves(c, s, m, j)
    ensures LetOutAmong(c, s, s, {m})
  {
    hide Keeps, FirstOpen;
  }

  lemma KeptIn(c: Scenario, s: State, t: State, m: MachineId, j: JobId)
    requires m in s.machines && s.machines[m].status.Blocked? && s.machines[m].job == Some(j) && Keeps(c, s.jobs, m, j)
    requires t == s.(machines := s.machines[m := s.machines[m].(status := Ready)], log := t.log)
    ensures LetOutAmong(c, s, t, {m})
  {
    hide Keeps, FirstOpen;
  }

  lemma ReleasedOut(c: Scenario, s: State, m: MachineId, j: JobId, p: Place)
    requires m in s.machines && s.machines[m].status.Blocked? && s.machines[m].job == Some(j) && !Keeps(c, s.jobs, m, j)
    requires j in s.jobs && p in s.storage && forall q :: LeavesTo(c, s, m, j, q) <==> q == p
    requires forall i :: i in s.jobs ==> (s.jobs[i].loc == AtMachine(m) <==> i == j)
    ensures LetOutAmong(c, s, ReleaseJob(s, m, j, p), {m})
  {
    hide Keeps, FirstOpen;
    assert LeavesTo(c, s, m, j, p);
    forall q, i ensures LeavesTo(c, s, m, i, q) ==> q == p && i == j {}
    var t := ReleaseJob(s, m, j, p);
    forall q | q in s.storage ensures ListCleared(c, s, {m}, q, t.storage[q]) {
      if q != p { assert t.storage[q] == s.storage[q]; } else { assert t.storage[p] == s.storage[p] + [j]; }
    }
    forall i | i in s.jobs ensures JobCleared(c, s, {m}, i, t.jobs[i]) {}
    hide LeavesTo;
  }

  // One machine after the other.

  ghost predicate OtherPosts(c: Scenario, m: MachineId, done: set<MachineId>) {
    m !in done && forall x :: x in done && x in c.post && m in c.post ==> c.post[x] != c.post[m]
  }

  lemma SameLeaving(c: Scenario, s: State, u: State, m: MachineId, done: set<MachineId>)
    requires LetOutAmong(c, s, u, done) && OtherPosts(c, m, done) && m in s.machines
    ensures forall j, p :: LeavesTo(c, u, m, j, p) <==> LeavesTo(c, s, m, j, p)
    ensures forall j :: Leaves(c, u, m, j) <==> Leaves(c, s, m, j)
    ensures forall j :: Keeps(c, u.jobs, m, j) <==> Keeps(c, s.jobs, m, j)
  {
    forall j ensures Keeps(c, u.jobs, m, j) <==> Keeps(c, s.jobs, m, j) {
      if j in s.jobs { assert JobCleared(c, s, done, j, u.jobs[j]); }
    }
    if m in c.post {
      forall x: nat ensures FirstOpen(c, u.storage, c.post[m], x) <==> FirstOpen(c, s.storage, c.post[m], x) {
        SamePost(c, s, u, m, done);
      }
    }
    hide Keeps, FirstOpen, LetOutAmong;
    assert u.machines[m] == s.machines[m];
    forall j, p ensures LeavesTo(c, u, m, j, p) <==> LeavesTo(c, s, m, j, p) {}
  }

  lemma SamePost(c: Scenario, s: State, u: State, m: MachineId, done: set<MachineId>)
    requires LetOutAmong(c, s, u, done) && OtherPosts(c, m, done) && m in c.post
    ensures forall p :: p in s.storage && p.owner == c.post[m] ==> p in u.storage && u.storage[p] == s.storage[p]
  {
    forall p | p in s.storage && p.owner == c.post[m] ensures u.storage[p] == s.storage[p] {
      assert ListCleared(c, s, done, p, u.storage[p]);
    }
  }

  lemma LetOutOne(c: Scenario, s: State, u: State, t: State, m: MachineId, done: set<MachineId>)
    requires LetOutAmong(c, s, u, done) && LetOutAmong(c, u, t, {m}) && OtherPosts(c, m, done) && m in s.machines
    ensures LetOutAmong(c, s, t, done + {m})
  {
    SameLeaving(c, s, u, m, done);
    hide MachineCleared, JobCleared, ListCleared, Leaves, LeavesTo, Keeps;
    forall x | x in s.machines
      ensures if x in done + {m} then MachineCleared(c, s, x, t.machines[x]) else t.machines[x] == s.machines[x] {
      if x != m { assert t.machines[x] == u.machines[x]; } else { MachineTwice(c, s, u, m, t.machines[m]); }
    }
    forall j | j in s.jobs ensures JobCleared(c, s, done + {m}, j, t.jobs[j]) { JobTwice(c, s, u, m, done, j, t.jobs[j]); }
    forall p | p in s.storage ensures ListCleared(c, s, done + {m}, p, t.storage[p]) {
      ListTwice(c, s, u, m, done, p, t.storage[p]);
    }
  }

  lemma MachineTwice(c: Scenario, s: State, u: State, m: MachineId, b: MachineRow)
    requires m in s.machines && m in u.machines && u.machines[m] == s.machines[m] && MachineCleared(c, u, m, b)
    requires forall j :: Leaves(c, u, m, j) <==> Leaves(c, s, m, j)
    requires forall j :: Keeps(c, u.jobs, m, j) <==> Keeps(c, s.jobs, m, j)
    ensures MachineCleared(c, s, m, b)
  {
    hide Leaves, Keeps;
  }

  lemma JobTwice(c: Scenario, s: State, u: State, m: MachineId, done: set<MachineId>, j: JobId, d: JobRow)
    requires u.tick == s.tick && j in s.jobs && j in u.jobs && m !in done && JobCleared(c, s, done, j, u.jobs[j]) && JobCleared(c, u, {m}, j, d)
    requires forall p :: LeavesTo(c, u, m, j, p) <==> LeavesTo(c, s, m, j, p)
    requires Leaves(c, u, m, j) <==> Leaves(c, s, m, j)
    ensures JobCleared(c, s, done + {m}, j, d)
  {
    hide Leaves, LeavesTo;
  }

  lemma ListTwice(c: Scenario, s: State, u: State, m: MachineId, done: set<MachineId>, p: Place, q: seq<JobId>)
    requires p in s.storage && p in u.storage && ListCleared(c, s, done, p, u.storage[p]) && ListCleared(c, u, {m}, p, q)
    requires OtherPosts(c, m, done) && forall j :: LeavesTo(c, u, m, j, p) <==> LeavesTo(c, s, m, j, p)
    ensures ListCleared(c, s, done + {m}, p, q)
  {
  }

  lemma {:induction false} UnblocksAmong(c: Scenario, s: State, n: nat)
    requires WellFormed(c) && Inv(c, s) && n <= |c.machineIds|
    ensures LetOutAmong(c, s, Unblocks(c, s, n), SetOf(c.machineIds[..n]))
  {
    hide *;
    if n == 0 {
      NothingUnblocked(c, s);
      NoneYet(c.machineIds);
    } else {
      UnblocksAmong(c, s, n - 1);
      UnblocksLast(c, s, n);
      LetOutOne(c, s, Unblocks(c, s, n - 1), Unblocks(c, s, n), c.machineIds[n - 1], SetOf(c.machineIds[..n - 1]));
    }
  }

  lemma NothingUnblocked(c: Scenario, s: State)
    requires WellFormed(c) && Inv(c, s)
    ensures Unblocks(c, s, 0) == s && LetOutAmong(c, s, s, {})
  {
    hide Inv, Settling.Cleared, Settled;
  }

  lemma UnblocksLast(c: Scenario, s: State, n: nat)
    requires WellFormed(c) && Inv(c, s) && 0 < n <= |c.machineIds|
    ensures var m, before := c.machineIds[n - 1], SetOf(c.machineIds[..n - 1]);
            && m in s.machines && OtherPosts(c, m, before) && before + {m} == SetOf(c.machineIds[..n])
            && LetOutAmong(c, Unblocks(c, s, n - 1), Unblocks(c, s, n), {m})
  {
    hide Inv, Settling.Cleared, Settled, LetOutAmong;
    var m := c.machineIds[n - 1];
    assert m in SetOf(c.machineIds);
    NotEarlier(c.machineIds, n - 1);
    forall x | x in SetOf(c.machineIds[..n - 1]) ensures x in c.post && m in c.post && c.post[x] != c.post[m] {
      assert x in SetOf(c.machineIds) && GoodMachine(c, x) && GoodMachine(c, m);
    }
    MachinesListed(c, s);
    UnblockLetsOut(c, Unblocks(c, s, n - 1), m);
  }

  lemma UnblocksLetOut(c: Scenario, s: State)
    requires WellFormed(c) && Inv(c, s)
    ensures LetOut(c, s, Unblocks(c, s, |c.machineIds|))
  {
    hide Inv, WellFormed, LetOutAmong, Unblocks;
    UnblocksAmong(c, s, |c.machineIds|);
    AllOf(c.machineIds);
    MachinesListed(c, s);
  }

  lemma ReleasesGo(c: Scenario, s: State)
    requires WellFormed(c) && Inv(c, s)
    ensures LetGo(c, s, Releases(c, s, |c.demandIds|), c.demandIds)
  {
    hide Inv, WellFormed, LetGo, Releases;
    ReleasesLetGo(c, s, |c.demandIds|);
    assert c.demandIds[..|c.demandIds|] == c.demandIds;
  }

  // -- the interval ----------------------------------------------------------------------------

  /** Down flags of the calendar, releases, admission, and leaving the machines. */
  ghost predicate Dawned(c: Scenario, s: State, t: State) {
    exists flagged: State, released: State, admitted: State ::
      Flown(c, s, flagged) && LetGo(c, flagged, released, c.demandIds) && LetIn(c, released, admitted) && LetOut(c, admitted, t)
  }

  /** The vehicles have moved, and it is `k` ticks later. */
  ghost predicate Gone(c: Scenario, s: State, acts: Actions, k: int, t: State) {
    && t == s.(tick := s.tick + k, agvs := t.agvs, log := t.log)
    && Driving.Driven(c, s.agvs, acts, t.agvs) && forall v :: v in s.agvs ==> t.agvs[v] == s.agvs[v].(cell := t.agvs[v].cell)
  }

  /** Moves, services, processing and the boundary phase. */
  ghost predicate Passed(c: Scenario, s: State, acts: Actions, k: int, t: State) {
    exists moved: State, served: State, worked: State ::
      Gone(c, s, acts, k, moved) && ServiceTick.TickOfServices(c, moved, served) && Worked(c, served, worked, k) && Dawned(c, worked, t)
  }

  lemma BoundaryDawns(c: Scenario, s: State)
    requires WellFormed(c) && Inv(c, s)
    ensures Dawned(c, s, Physics.Boundary(c, s, false))
  {
    hide Inv, WellFormed, Settled, FlagsCurrent, DueReleased, OnlyFlags, ReleasedTo, Admitted, Settling.Cleared, Flown, LetGo, LetIn, LetOut;
    var flagged := Flags(c, s, |c.machineIds|, false);
    var due := Releases(c, flagged, |c.demandIds|);
    var admitted := AdmitAll(c, due);
    FlagsFlown(c, s);
    ReleasesGo(c, flagged);
    AllLetIn(c, due);
    UnblocksLetOut(c, admitted);
    assert Flown(c, s, flagged) && LetGo(c, flagged, due, c.demandIds) && LetIn(c, due, admitted) && LetOut(c, admitted, Physics.Boundary(c, s, false));
  }

  lemma DepartDrives(c: Scenario, s: State, acts: Actions, k: int)
    requires WellFormed(c) && Inv(c, s) && Reachable(s, k)
    ensures Gone(c, s, acts, k, Depart(c, s, acts, k))
  {
    Driving.MoveIsDriven(c, s, acts);
    hide Inv, WellFormed, Reachable, Driving.Driven, MoveEvents, RejectEvents, Movement.Committed;
  }

  lemma IntervalPasses(c: Scenario, s: State, acts: Actions, k: int)
    requires WellFormed(c) && Inv(c, s) && Reachable(s, k)
    ensures Passed(c, s, acts, k, Interval(c, s, acts, k))
  {
    hide Inv, WellFormed, Reachable, Calm, DueReleased, Depart, Physics.CompleteServices, Physics.Boundary, Works, Gone,
         ServiceTick.TickOfServices, WorkedAmong, Dawned;
    var moved := Depart(c, s, acts, k);
    var served := Physics.CompleteServices(c, moved);
    var worked := Stepping.Advance(c, moved, k);
    DepartDrives(c, s, acts, k);
    ServiceTick.ServicesTick(c, moved);
    StillReachable(moved, served, k);
    WorksWorked(c, served, k);
    BoundaryDawns(c, worked);
    assert Gone(c, s, acts, k, moved) && ServiceTick.TickOfServices(c, moved, served) && Worked(c, served, worked, k);
  }

  lemma StillReachable(s: State, t: State, k: int)
    requires Reachable(s, k) && t.machines == s.machines
    ensures Reachable(t, k)
  {
    forall m | m in t.machines ensures WithinWork(t.machines, m, k) { assert WithinWork(s.machines, m, k); }
  }

  // -- arrivals --------------------------------------------------------------------------------

  /** Exactly the vehicles that stand at a port of their target and did not before arrive now. */
  ghost predicate Noted(c: Scenario, before: Movement.Cells, s: State, t: State) {
    && t == s.(agvs := t.agvs) && t.agvs.Keys == s.agvs.Keys
    && forall v :: v in s.agvs ==>
         var a := s.agvs[v];
         t.agvs[v] == a.(arrivedAt :=
           if a.target.Some? && a.target.value in c.ports && a.cell in c.ports[a.target.value] && v in before && before[v] !in c.ports[a.target.value]
           then s.tick else a.arrivedAt)
  }

  lemma ArrivalsNoted(c: Scenario, before: Movement.Cells, s: State)
    ensures Noted(c, before, s, Arrive(c, before, s))
  {
  }
}
