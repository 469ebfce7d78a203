/** What the event log of a run proves about products: every operation once and in order on a capable
    machine, every demand shipped at most once, admission first come first served per Input. */
module Trails {
  import opened Collections
  import opened Availability
  import opened Factory
  import opened Custody
  import opened Safety
  import opened Operations
  import opened Preservation
  import opened Settling
  import opened Deliveries
  import opened Physics
  import opened Stepping
  import opened Runs
  import opened Chronicles
  import Durations
  import ServiceTick

  // -- reading the log -------------------------------------------------------------------------

  datatype Mark = Mark(machine: MachineId, step: nat)

  /** The operations completed on a job, in order. */
  function Trail(log: seq<Event>, j: JobId): seq<Mark> {
    if log == [] then []
    else
      var e := log[|log| - 1];
      Trail(log[..|log| - 1], j) + if e.ProcessingCompleted? && e.job == j then [Mark(e.machine, e.step)] else []
  }

  /** How often a demand was shipped. */
  function Shipments(c: Scenario, log: seq<Event>, d: DemandId): nat {
    if log == [] then 0
    else
      var e := log[|log| - 1];
      Shipments(c, log[..|log| - 1], d) + if IsShipment(c, e) && e.job.demand == d then 1 else 0
  }

  predicate Enters(c: Scenario, j: JobId, b: BufferId) {
    j.demand in c.demands && c.demands[j.demand].input == b
  }

  /** Jobs queued for an Input, in order. */
  function Arrivals(c: Scenario, log: seq<Event>, b: BufferId): seq<JobId> {
    if log == [] then []
    else
      var e := log[|log| - 1];
      Arrivals(c, log[..|log| - 1], b) + if e.AttemptQueued? && Enters(c, e.job, b) then [e.job] else []
  }

  /** Jobs admitted to an Input, in order. */
  function Admissions(log: seq<Event>, b: BufferId): seq<JobId> {
    if log == [] then []
    else
      var e := log[|log| - 1];
      Admissions(log[..|log| - 1], b) + if e.InputAdmitted? && e.place.owner == b then [e.job] else []
  }

  /** Jobs still queued for an Input, in order. */
  function Waiting(c: Scenario, queue: seq<JobId>, b: BufferId): seq<JobId> {
    if queue == [] then [] else (if Enters(c, queue[0], b) then [queue[0]] else []) + Waiting(c, queue[1..], b)
  }

  // -- the invariant ---------------------------------------------------------------------------

  ghost predicate Travelled(c: Scenario, jobs: Rows, log: seq<Event>, j: JobId) {
    var t := Trail(log, j);
    && |t| == (if j in jobs then jobs[j].step else 0)
    && forall i {:trigger t[i]} :: 0 <= i < |t| ==> t[i].step == i && Capable(c, j, i, t[i].machine)
  }

  ghost predicate ShippedOnce(c: Scenario, shipped: set<DemandId>, log: seq<Event>, d: DemandId) {
    Shipments(c, log, d) == if d in shipped then 1 else 0
  }

  ghost predicate Served(c: Scenario, queue: seq<JobId>, log: seq<Event>, b: BufferId) {
    Arrivals(c, log, b) == Admissions(log, b) + Waiting(c, queue, b)
  }

  ghost predicate History(c: Scenario, s: State) {
    && (forall j {:trigger Travelled(c, s.jobs, s.log, j)} :: Travelled(c, s.jobs, s.log, j))
    && (forall d {:trigger ShippedOnce(c, s.ledger.shipped, s.log, d)} :: ShippedOnce(c, s.ledger.shipped, s.log, d))
    && (forall b {:trigger Served(c, s.queue, s.log, b)} :: Served(c, s.queue, s.log, b))
    && Chronicle(c, s)
  }

  // -- silent changes --------------------------------------------------------------------------

  /** Events the history does not count. */
  predicate Silent(c: Scenario, e: Event) {
    Mute(c, e) && !e.AttemptQueued? && !e.InputAdmitted?
  }

  ghost predicate SilentFrom(c: Scenario, log: seq<Event>, n: nat) {
    forall i {:trigger log[i]} :: n <= i < |log| ==> Silent(c, log[i])
  }

  /** Only silent events, no job, operation, queue or shipment is touched. */
  ghost predicate Uneventful(c: Scenario, s: State, t: State) {
    && s.log <= t.log && SilentFrom(c, t.log, |s.log|)
    && t.queue == s.queue && SameSteps(s, t) && Undisturbed(c, s, t)
  }

  lemma {:induction false} SilentTail(c: Scenario, log: seq<Event>, n: nat)
    requires n <= |log| && SilentFrom(c, log, n)
    ensures forall j :: Trail(log, j) == Trail(log[..n], j)
    ensures forall d :: Shipments(c, log, d) == Shipments(c, log[..n], d)
    ensures forall b :: Arrivals(c, log, b) == Arrivals(c, log[..n], b) && Admissions(log, b) == Admissions(log[..n], b)
  {
    if n < |log| {
      var less := log[..|log| - 1];
      assert forall i :: n <= i < |less| ==> less[i] == log[i];
      SilentTail(c, less, n);
      assert less[..n] == log[..n];
      assert Silent(c, log[|log| - 1]);
    } else {
      assert log[..n] == log;
    }
  }

  lemma SilentHistory(c: Scenario, s: State, t: State)
    requires History(c, s) && Uneventful(c, s, t)
    ensures History(c, t)
  {
    SilentTail(c, t.log, |s.log|);
    assert t.log[..|s.log|] == s.log;
    forall j ensures Travelled(c, t.jobs, t.log, j) { assert Travelled(c, s.jobs, s.log, j); }
    forall d ensures ShippedOnce(c, t.ledger.shipped, t.log, d) { assert ShippedOnce(c, s.ledger.shipped, s.log, d); }
    forall b ensures Served(c, t.queue, t.log, b) { assert Served(c, s.queue, s.log, b); }
    hide Travelled, ShippedOnce, Served, Chronicle;
    UndisturbedChronicle(c, s, t);
  }

  lemma UneventfulMore(c: Scenario, s: State, u: State, t: State)
    requires Uneventful(c, s, u) && Uneventful(c, u, t)
    ensures Uneventful(c, s, t)
  {
    forall i | |s.log| <= i < |t.log| ensures Silent(c, t.log[i]) {
      if i < |u.log| { assert t.log[i] == u.log[i]; }
    }
    UndisturbedMore(c, s, u, t);
    hide Undisturbed;
  }

  lemma UneventfulSelf(c: Scenario, s: State)
    ensures Uneventful(c, s, s)
  {
  }

  lemma SetDownSilent(c: Scenario, s: State, m: MachineId, down: bool)
    requires m in s.machines
    ensures Uneventful(c, s, SetDown(s, m, down))
  {
  }

  lemma ReleaseJobSilent(c: Scenario, s: State, m: MachineId, j: JobId, p: Place)
    requires m in s.machines && j in s.jobs && p in s.storage
    ensures Uneventful(c, s, ReleaseJob(s, m, j, p))
  {
  }

  lemma RetainSilent(c: Scenario, s: State, m: MachineId, j: JobId)
    requires m in s.machines
    ensures Uneventful(c, s, s.(machines := s.machines[m := s.machines[m].(status := Ready)], log := s.log + [Retained(s.tick, m, j)]))
  {
  }

  lemma UnblockIs(c: Scenario, s: State, m: MachineId)
    requires WellFormed(c) && Inv(c, s) && m in c.machines
    ensures m in s.machines
    ensures var t := Unblock(c, s, m);
            || t == s
            || (exists j :: t == s.(machines := s.machines[m := s.machines[m].(status := Ready)], log := s.log + [Retained(s.tick, m, j)]))
            || (exists j, p :: j in s.jobs && p in s.storage && t == ReleaseJob(s, m, j, p))
  {
    assert MachineOk(c, s.jobs, m, s.machines[m]) && GoodMachine(c, m);
  }

  lemma UnblockSilent(c: Scenario, s: State, m: MachineId)
    requires WellFormed(c) && Inv(c, s) && m in c.machines
    ensures Uneventful(c, s, Unblock(c, s, m))
  {
    UnblockIs(c, s, m);
    hide WellFormed, Inv, Unblock, ReleaseJob, Uneventful;
    var t := Unblock(c, s, m);
    UneventfulSelf(c, s);
    if j :| t == s.(machines := s.machines[m := s.machines[m].(status := Ready)], log := s.log + [Retained(s.tick, m, j)]) { RetainSilent(c, s, m, j); }
    if j, p :| j in s.jobs && p in s.storage && t == ReleaseJob(s, m, j, p) { ReleaseJobSilent(c, s, m, j, p); }
  }

  lemma CancelSilent(c: Scenario, s: State, v: AgvId)
    requires v in s.agvs
    ensures Uneventful(c, s, Cancel(c, s, v))
  {
    hide Cancel, SilentFrom, MuteFrom;
    CancelLog(c, s, v);
    SilentMore(c, s.log, Cancel(c, s, v).log);
  }

  lemma CancelLog(c: Scenario, s: State, v: AgvId)
    requires v in s.agvs
    ensures var t := Cancel(c, s, v);
            && t.queue == s.queue && t.jobs == s.jobs && t.machines == s.machines && t.ledger == s.ledger && s.log <= t.log
            && forall i :: |s.log| <= i < |t.log| ==> t.log[i].ReservationCancelled? || t.log[i].ServiceInterrupted?
  {
    hide RunningClocks, Done, DoneAt;
  }

  lemma SilentMore(c: Scenario, log: seq<Event>, more: seq<Event>)
    requires log <= more && forall i :: |log| <= i < |more| ==> more[i].ReservationCancelled? || more[i].ServiceInterrupted?
    ensures SilentFrom(c, more, |log|) && MuteFrom(c, more, |log|)
  {
  }

  lemma AimSilent(c: Scenario, s: State, v: AgvId, b: BufferId)
    requires v in s.agvs
    ensures Uneventful(c, s, Aim(s, v, b))
  {
  }

  lemma ReconcileSilent(c: Scenario, s: State, v: AgvId)
    requires WellFormed(c) && Inv(c, s) && v in s.agvs
    ensures Uneventful(c, s, Reconcile(c, s, v))
  {
    InvKeys(c, s);
    if v in s.assignments { ServiceTick.TaskFacts(c, s, v); }
    ServiceTick.ReconcileIs(c, s, v);
    if v in s.assignments {
      CancelSilent(c, s, v);
      AimSilent(c, s, v, s.assignments[v].destination);
    }
    hide WellFormed, Inv, Shaped, Reconcile, Cancel, Aim, Eligible;
  }

  lemma PickUpSilent(c: Scenario, s: State, v: AgvId, j: JobId, p: Place)
    requires v in s.agvs && j in s.jobs && p in s.storage
    ensures Uneventful(c, s, PickUp(s, v, j, p))
  {
  }

  // -- eventful changes ------------------------------------------------------------------------

  /** An operation that takes the rest of its time ends so; its job is not shipped yet. */
  lemma FinishEnds(c: Scenario, s: State, m: MachineId, k: int)
    requires WellFormed(c) && Inv(c, s) && m in c.machines && s.machines[m].status.Processing? && s.machines[m].remaining == k
    ensures s.machines[m].job.Some? && Ended(c, s, Finish(c, s, m, k), m, s.machines[m].job.value)
    ensures s.machines[m].job.value.demand !in s.ledger.shipped
  {
    assert MachineOk(c, s.jobs, m, s.machines[m]) && MachineNames(s.jobs, s.machines, m);
    var j := s.machines[m].job.value;
    assert LedgerRow(c, s.jobs[j], j, s.ledger);
  }

  lemma FinishHistory(c: Scenario, s: State, m: MachineId, k: int)
    requires WellFormed(c) && Inv(c, s) && m in c.machines && s.machines[m].status.Processing? && s.machines[m].remaining == k && History(c, s)
    ensures History(c, Finish(c, s, m, k))
  {
    assert MachineOk(c, s.jobs, m, s.machines[m]);
    var j := s.machines[m].job.value;
    var t := Finish(c, s, m, k);
    FinishEnds(c, s, m, k);
    FinishChronicle(c, s, t, m, j);
    OneCompletion(c, s, t, j, m, t.log[|s.log|]);
  }

  lemma OneCompletion(c: Scenario, s: State, t: State, j: JobId, m: MachineId, e: Event)
    requires History(c, s) && j in s.jobs && Capable(c, j, s.jobs[j].step, m)
    requires e.ProcessingCompleted? && e.job == j && e.machine == m && e.step == s.jobs[j].step && t.log == s.log + [e]
    requires j in t.jobs && t.jobs == s.jobs[j := t.jobs[j]] && t.jobs[j].step == s.jobs[j].step + 1
    requires t.queue == s.queue && t.ledger == s.ledger && Chronicle(c, t)
    ensures History(c, t)
  {
    assert t.log[..|t.log| - 1] == s.log;
    forall i ensures Travelled(c, t.jobs, t.log, i) { assert Travelled(c, s.jobs, s.log, i); }
    forall d ensures ShippedOnce(c, t.ledger.shipped, t.log, d) { assert ShippedOnce(c, s.ledger.shipped, s.log, d); }
    forall b ensures Served(c, t.queue, t.log, b) { assert Served(c, s.queue, s.log, b); }
  }

  lemma WorkHistory(c: Scenario, s: State, m: MachineId, k: int)
    requires WellFormed(c) && Inv(c, s) && m in c.machines && History(c, s)
    ensures History(c, Work(c, s, m, k))
  {
    var row := s.machines[m];
    if row.status.Processing? && !row.down {
      if row.remaining == k { FinishHistory(c, s, m, k); } else { SilentHistory(c, s, Work(c, s, m, k)); }
    }
  }

  /** A delivery into an Output appends three events, the second of which ships the demand. */
  lemma OneShipment(c: Scenario, s: State, t: State, j: JobId, x: Event, e: Event, y: Event)
    requires History(c, s) && j.demand !in s.ledger.shipped && t.ledger.shipped == s.ledger.shipped + {j.demand}
    requires x.QualityRevealed? && IsShipment(c, e) && e.job == j && y.ServiceCompleted? && t.log == s.log + [x] + [e] + [y]
    requires SameSteps(s, t) && t.queue == s.queue && Chronicle(c, t)
    ensures History(c, t)
  {
    var one, two := s.log + [x], s.log + [x] + [e];
    assert one[..|one| - 1] == s.log && two[..|two| - 1] == one && t.log[..|t.log| - 1] == two;
    forall i ensures Travelled(c, t.jobs, t.log, i) {
      assert Travelled(c, s.jobs, s.log, i);
      assert Trail(two, i) == Trail(one, i) == Trail(s.log, i);
    }
    forall d ensures ShippedOnce(c, t.ledger.shipped, t.log, d) {
      assert ShippedOnce(c, s.ledger.shipped, s.log, d);
      assert Shipments(c, t.log, d) == Shipments(c, two, d) && Shipments(c, one, d) == Shipments(c, s.log, d);
    }
    forall b ensures Served(c, t.queue, t.log, b) {
      assert Served(c, s.queue, s.log, b);
      assert Arrivals(c, two, b) == Arrivals(c, one, b) == Arrivals(c, s.log, b);
      assert Admissions(two, b) == Admissions(one, b) == Admissions(s.log, b);
    }
  }

  lemma DeliverLog(c: Scenario, s: State, v: AgvId, j: JobId, p: Place)
    requires v in s.agvs && j in s.jobs && p in s.storage && p.owner in c.buffers
    ensures var t, q := Deliver(c, s, v, j, p), if s.jobs[j].defective then Failed else Passed;
            t.log == s.log + (if InOutput(c, Stored(p)) then [QualityRevealed(s.tick, j, q, s.jobs[j].defective && !s.jobs[j].confirmed)] else [])
                     + [Transferred(s.tick, DropOff, v, j, p)] + [ServiceCompleted(s.tick, DropOff, v, j)]
  {
  }

  lemma DeliverHistory(c: Scenario, s: State, v: AgvId, j: JobId, p: Place)
    requires v in s.agvs && j in s.jobs && p in s.storage && p.owner in c.buffers
    requires History(c, s) && j.demand !in s.ledger.shipped && j == Job(j.demand, 1)
    requires forall i :: i in s.jobs && i.demand == j.demand ==> i == j
    ensures History(c, Deliver(c, s, v, j, p))
  {
    var t := Deliver(c, s, v, j, p);
    ServiceTick.DeliverRows(c, s, v, j, p);
    DeliverLog(c, s, v, j, p);
    hide Deliver;
    if InOutput(c, Stored(p)) {
      var n := |s.log|;
      assert t.log == s.log + [t.log[n]] + [t.log[n + 1]] + [t.log[n + 2]];
      ShipChronicle(c, s, t, j, t.log[n], t.log[n + 1], t.log[n + 2]);
      OneShipment(c, s, t, j, t.log[n], t.log[n + 1], t.log[n + 2]);
    } else {
      SilentHistory(c, s, t);
    }
  }

  /** A released demand has one job. */
  lemma OnlyAttempt(c: Scenario, s: State, j: JobId)
    requires WellFormed(c) && Inv(c, s) && j in s.jobs
    ensures j == Job(j.demand, 1) && (j.demand in s.ledger.shipped <==> InOutput(c, s.jobs[j].loc))
    ensures forall i :: i in s.jobs && i.demand == j.demand ==> i == j
  {
    assert LedgerRow(c, s.jobs[j], j, s.ledger);
    forall i | i in s.jobs && i.demand == j.demand ensures i == j { assert LedgerRow(c, s.jobs[i], i, s.ledger); }
  }

  lemma CompleteHistory(c: Scenario, s: State, v: AgvId)
    requires WellFormed(c) && Inv(c, s) && v in s.agvs && History(c, s)
    ensures History(c, Complete(c, s, v))
  {
    if s.agvs[v].service.Some? {
      var x := s.agvs[v].service.value;
      if x.kind.DropOff? {
        UnloadingFacts(c, s, v);
        OnlyAttempt(c, s, x.job);
        DeliverHistory(c, s, v, x.job, x.place);
      } else {
        LoadingFacts(c, s, v);
        PickUpSilent(c, s, v, x.job, x.place);
        SilentHistory(c, s, Complete(c, s, v));
      }
    }
  }

  // -- arrivals and admissions -----------------------------------------------------------------

  lemma {:induction false} WaitingJoin(c: Scenario, left: seq<JobId>, right: seq<JobId>, b: BufferId)
    ensures Waiting(c, left + right, b) == Waiting(c, left, b) + Waiting(c, right, b)
  {
    if left == [] {
      assert left + right == right;
    } else {
      assert (left + right)[1..] == left[1..] + right;
      WaitingJoin(c, left[1..], right, b);
    }
  }

  lemma OneArrival(c: Scenario, s: State, t: State, j: JobId, e: Event, y: Event)
    requires History(c, s) && j !in s.jobs && t.ledger.shipped == s.ledger.shipped
    requires e.AttemptQueued? && e.job == j && y.DemandReleased? && t.log == s.log + [e] + [y]
    requires t.queue == s.queue + [j] && j in t.jobs && t.jobs == s.jobs[j := t.jobs[j]] && t.jobs[j].step == 0 && Chronicle(c, t)
    ensures History(c, t)
  {
    var one := s.log + [e];
    assert one[..|one| - 1] == s.log && t.log[..|t.log| - 1] == one;
    forall i ensures Travelled(c, t.jobs, t.log, i) { assert Travelled(c, s.jobs, s.log, i); }
    forall d ensures ShippedOnce(c, t.ledger.shipped, t.log, d) { assert ShippedOnce(c, s.ledger.shipped, s.log, d); }
    forall b ensures Served(c, t.queue, t.log, b) {
      assert Served(c, s.queue, s.log, b);
      WaitingJoin(c, s.queue, [j], b);
    }
  }

  lemma ReleaseChronicle(c: Scenario, s: State, d: DemandId)
    requires d in c.demands && Chronicle(c, s) && d !in s.ledger.released && s.ledger.shipped <= s.ledger.released
    requires d !in s.ledger.attempts && Job(d, 1) !in s.jobs
    ensures Chronicle(c, ReleaseDemand(c, s, d))
  {
    hide Chronicle;
    UndisturbedChronicle(c, s, ReleaseDemand(c, s, d));
  }

  lemma ReleaseHistory(c: Scenario, s: State, d: DemandId)
    requires WellFormed(c) && Inv(c, s) && d in c.demands && History(c, s)
    ensures History(c, ReleaseDemand(c, s, d))
  {
    if c.demands[d].releaseAt <= s.tick && d !in s.ledger.released {
      var t := ReleaseDemand(c, s, d);
      var j := Job(d, 1);
      if j in s.jobs { assert LedgerRow(c, s.jobs[j], j, s.ledger); }
      var n := |s.log|;
      assert t.log == s.log + [t.log[n]] + [t.log[n + 1]];
      ReleaseChronicle(c, s, d);
      OneArrival(c, s, t, j, t.log[n], t.log[n + 1]);
    }
  }

  lemma AdmitChronicle(c: Scenario, s: State, j: JobId, p: Place, queue: seq<JobId>)
    requires j in s.jobs && p in s.storage && Chronicle(c, s)
    ensures Chronicle(c, AdmitJob(s, j, p, queue))
  {
    hide Chronicle;
    UndisturbedChronicle(c, s, AdmitJob(s, j, p, queue));
  }

  lemma OneAdmission(c: Scenario, s: State, j: JobId, p: Place, kept: seq<JobId>, rest: seq<JobId>)
    requires History(c, s) && j in s.jobs && p in s.storage && s.queue == kept + rest && rest != [] && rest[0] == j
    requires Enters(c, j, p.owner) && Waiting(c, kept, p.owner) == []
    ensures History(c, AdmitJob(s, j, p, kept + rest[1..]))
  {
    var t := AdmitJob(s, j, p, kept + rest[1..]);
    AdmitChronicle(c, s, j, p, kept + rest[1..]);
    hide Chronicle;
    assert t.log[..|t.log| - 1] == s.log;
    forall i ensures Travelled(c, t.jobs, t.log, i) { assert Travelled(c, s.jobs, s.log, i); }
    forall d ensures ShippedOnce(c, t.ledger.shipped, t.log, d) { assert ShippedOnce(c, s.ledger.shipped, s.log, d); }
    forall b ensures Served(c, t.queue, t.log, b) {
      assert Served(c, s.queue, s.log, b);
      WaitingJoin(c, kept, rest, b);
      WaitingJoin(c, kept, rest[1..], b);
    }
  }

  /** Jobs that were passed over wait at an Input that refused one of them. */
  ghost predicate PassedOver(c: Scenario, kept: seq<JobId>, full: set<BufferId>) {
    forall i {:trigger kept[i]} :: 0 <= i < |kept| ==> kept[i].demand in c.demands && c.demands[kept[i].demand].input in full
  }

  lemma {:induction false} NoneWaiting(c: Scenario, kept: seq<JobId>, full: set<BufferId>, b: BufferId)
    requires PassedOver(c, kept, full) && b !in full
    ensures Waiting(c, kept, b) == []
  {
    if kept != [] {
      assert forall i :: 0 <= i < |kept[1..]| ==> kept[1..][i] == kept[i + 1];
      assert !Enters(c, kept[0], b);
      NoneWaiting(c, kept[1..], full, b);
    }
  }

  lemma {:induction false} AdmitHistory(c: Scenario, s: State, kept: seq<JobId>, rest: seq<JobId>, full: set<BufferId>)
    requires WellFormed(c) && Inv(c, s) && s.queue == kept + rest
    requires AllStuck(c, s.storage, kept) && forall b :: b in full ==> Crammed(c, s.storage, b)
    requires History(c, s) && PassedOver(c, kept, full)
    ensures History(c, Admit(c, s, kept, rest, full))
    decreases |rest|
  {
    hide History;
    if rest != [] {
      var j := rest[0];
      QueuedJob(c, s, kept, rest);
      var b := c.demands[j.demand].input;
      var k := Free(c, s, b);
      if k.None? || b in full {
        assert s.queue == (kept + [j]) + rest[1..];
        AllStuckAppend(c, s.storage, kept, j);
        AdmitHistory(c, s, kept + [j], rest[1..], full + {b});
      } else {
        var p := Place(b, k.value);
        var t := AdmitJob(s, j, p, kept + rest[1..]);
        AdmitKeeps(c, s, j, p, kept + rest[1..]);
        AdmitFrame(s, j, p, kept + rest[1..]);
        StillFull(c, s, t, kept, full);
        NoneWaiting(c, kept, full, b);
        OneAdmission(c, s, j, p, kept, rest);
        AdmitHistory(c, t, kept, rest[1..], full);
      }
    }
  }

  // -- the phases of an interval ---------------------------------------------------------------

  lemma InvKeys(c: Scenario, s: State)
    requires WellFormed(c) && Inv(c, s)
    ensures Shaped(c, s) && s.machines.Keys == c.machines.Keys && s.agvs.Keys == c.start.Keys
  {
  }

  lemma {:induction false} FlagsSilent(c: Scenario, s: State, n: nat, scan: bool)
    requires WellFormed(c) && Inv(c, s) && n <= |c.machineIds|
    ensures Uneventful(c, s, Flags(c, s, n, scan))
  {
    hide Inv, FlagsCurrent, ScanAgrees, Flagged, DownAt, Covered, SetDown, Uneventful, OnlyFlags;
    UneventfulSelf(c, s);
    if n > 0 {
      FlagsSilent(c, s, n - 1, scan);
      var u, m := Flags(c, s, n - 1, scan), c.machineIds[n - 1];
      assert m in SetOf(c.machineIds);
      InvKeys(c, u);
      SetDownSilent(c, u, m, if scan then Covered(c.outages, m, u.tick) else DownAt(c.outages, m, u.tick));
      UneventfulMore(c, s, u, Flags(c, s, n, scan));
    }
  }

  lemma {:induction false} ReleasesHistory(c: Scenario, s: State, n: nat)
    requires WellFormed(c) && Inv(c, s) && n <= |c.demandIds| && History(c, s)
    ensures History(c, Releases(c, s, n))
  {
    hide Inv, History;
    if n > 0 {
      ReleasesHistory(c, s, n - 1);
      assert c.demandIds[n - 1] in SetOf(c.demandIds);
      ReleaseHistory(c, Releases(c, s, n - 1), c.demandIds[n - 1]);
    }
  }

  lemma {:induction false} UnblocksSilent(c: Scenario, s: State, n: nat)
    requires WellFormed(c) && Inv(c, s) && n <= |c.machineIds|
    ensures Uneventful(c, s, Unblocks(c, s, n))
  {
    hide Inv;
    if n > 0 {
      UnblocksSilent(c, s, n - 1);
      var u, m := Unblocks(c, s, n - 1), c.machineIds[n - 1];
      assert m in SetOf(c.machineIds);
      UnblockSilent(c, u, m);
      UneventfulMore(c, s, u, Unblocks(c, s, n));
    }
  }

  lemma BoundaryHistory(c: Scenario, s: State, scan: bool)
    requires WellFormed(c) && Inv(c, s) && History(c, s)
    ensures History(c, Boundary(c, s, scan))
  {
    hide Inv, History, Uneventful;
    var flagged := Flags(c, s, |c.machineIds|, scan);
    FlagsSilent(c, s, |c.machineIds|, scan);
    SilentHistory(c, s, flagged);
    var due := Releases(c, flagged, |c.demandIds|);
    ReleasesHistory(c, flagged, |c.demandIds|);
    assert due.queue == [] + due.queue;
    AdmitHistory(c, due, [], due.queue, {});
    var admitted := AdmitAll(c, due);
    UnblocksSilent(c, admitted, |c.machineIds|);
    SilentHistory(c, admitted, Unblocks(c, admitted, |c.machineIds|));
  }

  lemma {:induction false} WithdrawSilent(c: Scenario, q: seq<AgvId>, s: State, n: nat)
    requires WellFormed(c) && Inv(c, s) && InTurn(c, q) && n <= |q|
    ensures Uneventful(c, s, Withdraw(c, q, s, n))
  {
    hide *;
    WithdrawFirst(c, q, s);
    UneventfulSelf(c, s);
    if n > 0 {
      WithdrawSilent(c, q, s, n - 1);
      WithdrawNext(c, q, s, n - 1);
      var u, v := Withdraw(c, q, s, n - 1), q[n - 1];
      CancelSilent(c, u, v);
      UneventfulSelf(c, u);
      UneventfulMore(c, s, u, Withdraw(c, q, s, n));
    }
  }

  lemma {:induction false} InterruptSilent(c: Scenario, s: State, n: nat)
    requires WellFormed(c) && Inv(c, s) && n <= |c.agvIds|
    ensures Uneventful(c, s, Interrupt(c, s, n))
  {
    hide *;
    UneventfulSelf(c, s);
    if n == 0 {
      ServiceTick.InterruptFirst(c, s);
    } else {
      InterruptSilent(c, s, n - 1);
      ServiceTick.InterruptParts(c, s, n - 1);
      var u, v := Interrupt(c, s, n - 1), c.agvIds[n - 1];
      UneventfulSelf(c, u);
      CancelSilent(c, u, v);
      UneventfulMore(c, s, u, Interrupt(c, s, n));
    }
  }

  lemma {:induction false} CompletesHistory(c: Scenario, s: State, n: nat)
    requires WellFormed(c) && Inv(c, s) && n <= |c.agvIds| && History(c, s)
    ensures History(c, Completes(c, s, n))
  {
    hide Inv, History;
    if n > 0 {
      CompletesHistory(c, s, n - 1);
      assert c.agvIds[n - 1] in SetOf(c.agvIds);
      InvKeys(c, Completes(c, s, n - 1));
      CompleteHistory(c, Completes(c, s, n - 1), c.agvIds[n - 1]);
    }
  }

  lemma {:induction false} ReconcilesSilent(c: Scenario, q: seq<AgvId>, s: State, n: nat)
    requires WellFormed(c) && Inv(c, s) && InTurn(c, q) && n <= |q|
    ensures Uneventful(c, s, Reconciles(c, q, s, n))
  {
    hide *;
    UneventfulSelf(c, s);
    if n > 0 {
      ReconcilesSilent(c, q, s, n - 1);
      ReconcilesNext(c, q, s, n - 1);
      var u, v := Reconciles(c, q, s, n - 1), q[n - 1];
      ReconcileSilent(c, u, v);
      UneventfulMore(c, s, u, Reconciles(c, q, s, n));
    } else {
      NothingReconciled(c, q, s);
    }
  }

  lemma TasksSilent(c: Scenario, s: State)
    requires WellFormed(c) && Inv(c, s)
    ensures Uneventful(c, s, WithdrawTasks(c, s)) && Uneventful(c, s, ReconcileTasks(c, s))
  {
    hide Inv, Uneventful;
    var q := Turns(c, s.log);
    WithdrawSilent(c, q, s, |q|);
    ReconcilesSilent(c, q, s, |q|);
  }

  lemma {:induction false} WorksHistory(c: Scenario, s: State, n: nat, k: int)
    requires WellFormed(c) && Inv(c, s) && n <= |c.machineIds| && Reachable(s, k) && History(c, s)
    ensures History(c, Works(c, s, n, k))
  {
    hide Inv, History;
    if n > 0 {
      WorksHistory(c, s, n - 1, k);
      assert c.machineIds[n - 1] in SetOf(c.machineIds);
      WorkHistory(c, Works(c, s, n - 1, k), c.machineIds[n - 1], k);
    }
  }

  lemma {:induction false} MovesSilent(c: Scenario, s: State, acts: Actions, ids: seq<AgvId>)
    ensures SilentFrom(c, MoveEvents(c, s, acts, ids), 0) && SilentFrom(c, RejectEvents(c, s, acts, ids), 0)
  {
    if ids != [] { MovesSilent(c, s, acts, ids[1..]); }
  }

  lemma DepartSilent(c: Scenario, s: State, acts: Actions, k: int)
    requires WellFormed(c) && Inv(c, s) && Reachable(s, k)
    ensures Uneventful(c, s, Depart(c, s, acts, k))
  {
    hide Inv;
    MovesSilent(c, s, acts, c.agvIds);
  }

  lemma ServicesHistory(c: Scenario, s: State)
    requires WellFormed(c) && Inv(c, s) && History(c, s)
    ensures History(c, CompleteServices(c, s))
  {
    hide Inv, History, Uneventful;
    var n := |c.agvIds|;
    var w := WithdrawTasks(c, s);
    TasksSilent(c, s);
    SilentHistory(c, s, w);
    var i := Interrupt(c, w, n);
    InterruptSilent(c, w, n);
    SilentHistory(c, w, i);
    var d := Completes(c, i, n);
    CompletesHistory(c, i, n);
    var r := ReconcileTasks(c, d);
    TasksSilent(c, d);
    SilentHistory(c, d, r);
    SyncSilent(c, r);
    SilentHistory(c, r, SyncIdle(c, r));
  }

  lemma SyncSilent(c: Scenario, s: State)
    ensures Uneventful(c, s, SyncIdle(c, s))
  {
  }

  lemma AdvanceHistory(c: Scenario, s: State, k: int)
    requires WellFormed(c) && Inv(c, s) && Reachable(s, k) && History(c, s)
    ensures History(c, Advance(c, s, k))
  {
    hide Inv, History;
    var u := CompleteServices(c, s);
    ServicesHistory(c, s);
    assert Reachable(u, k) by {
      forall m | m in u.machines ensures WithinWork(u.machines, m, k) { assert WithinWork(s.machines, m, k); }
    }
    WorksHistory(c, u, |c.machineIds|, k);
  }

  lemma IntervalHistory(c: Scenario, s: State, acts: Actions, k: int)
    requires WellFormed(c) && Inv(c, s) && Reachable(s, k) && History(c, s)
    ensures History(c, Interval(c, s, acts, k))
  {
    hide Inv, History, Uneventful;
    var a := Depart(c, s, acts, k);
    DepartSilent(c, s, acts, k);
    SilentHistory(c, s, a);
    AdvanceHistory(c, a, k);
    BoundaryHistory(c, Advance(c, a, k), false);
  }

  // -- runs ------------------------------------------------------------------------------------

  lemma StartHistory(c: Scenario, s: State, m: MachineId, j: JobId, mode: ModeId)
    requires WellFormed(c) && Inv(c, s) && Shaped(c, s) && Startable(c, s, m, j, mode) && History(c, s)
    ensures History(c, Start(c, s, m, j, mode))
  {
    var t := Start(c, s, m, j, mode);
    StartedSo(c, s, m, j, mode);
    hide WellFormed, Inv, Shaped, Startable, Start, Chronicle;
    StartChronicle(c, s, t, m, j, mode);
    OneStart(c, s, t, j, ProcessingStarted(s.tick, m, j, mode, t.machines[m].nominal, t.machines[m].remaining));
  }

  lemma StartedSo(c: Scenario, s: State, m: MachineId, j: JobId, mode: ModeId)
    requires WellFormed(c) && Inv(c, s) && Shaped(c, s) && Startable(c, s, m, j, mode)
    ensures Durations.Begun(c, s, Start(c, s, m, j, mode), m, j, mode)
  {
    assert MachineNames(s.jobs, s.machines, m) && Located(s.jobs, s.queue, s.storage, s.machines, s.agvs, j);
    hide Durations.Begun;
    Durations.StartBegins(c, s, m, j, mode);
  }

  lemma OneStart(c: Scenario, s: State, t: State, j: JobId, e: Event)
    requires History(c, s) && Chronicle(c, t) && e.ProcessingStarted? && t.log == s.log + [e]
    requires j in s.jobs && j in t.jobs && t.jobs == s.jobs[j := t.jobs[j]] && t.jobs[j].step == s.jobs[j].step
    requires t.queue == s.queue && t.ledger == s.ledger
    ensures History(c, t)
  {
    StartUnread(c, s.log, e);
    hide Chronicle, Trail, Shipments, Arrivals, Admissions, Waiting;
    forall i ensures Travelled(c, t.jobs, t.log, i) { assert Travelled(c, s.jobs, s.log, i); }
    forall d ensures ShippedOnce(c, t.ledger.shipped, t.log, d) { assert ShippedOnce(c, s.ledger.shipped, s.log, d); }
    forall b ensures Served(c, t.queue, t.log, b) { assert Served(c, s.queue, s.log, b); }
  }

  lemma StartUnread(c: Scenario, log: seq<Event>, e: Event)
    requires e.ProcessingStarted?
    ensures var more := log + [e];
            && (forall j :: Trail(more, j) == Trail(log, j)) && (forall d :: Shipments(c, more, d) == Shipments(c, log, d))
            && forall b :: Arrivals(c, more, b) == Arrivals(c, log, b) && Admissions(more, b) == Admissions(log, b)
  {
    var more := log + [e];
    assert more[..|more| - 1] == log;
  }

  lemma AcceptSilent(c: Scenario, s: State, v: AgvId, b: BufferId)
    requires v in s.agvs
    ensures Uneventful(c, s, Accept(c, s, v, b))
  {
  }

  lemma ServeSilent(c: Scenario, s: State, v: AgvId, kind: Kind, j: JobId, p: Place)
    requires v in s.agvs
    ensures Uneventful(c, s, Serve(s, v, kind, j, p))
  {
  }

  lemma AssignSilent(c: Scenario, s: State, v: AgvId, j: JobId, b: BufferId)
    requires v in s.agvs && j in s.jobs && (s.agvs[v].job.None? ==> s.jobs[j].loc.Stored?)
    ensures Uneventful(c, s, Assign(c, s, v, j, b))
  {
  }

  lemma ArriveSilent(c: Scenario, before: map<AgvId, Cell>, s: State)
    ensures Uneventful(c, s, Arrive(c, before, s))
  {
  }

  lemma DecisionSilent(c: Scenario, s: State, d: Decision)
    requires WellFormed(c) && Stable(c, s) && Enabled(c, s, d) && !d.Proceed? && !d.StartJob?
    ensures Uneventful(c, s, Apply(c, s, d))
  {
    hide Inv, Calm, Uneventful, Cancel, Start, Accept, Serve, Assign, Arrive;
    InvKeys(c, s);
    match d
    case CancelStale(v) => CancelSilent(c, s, v);
    case AcceptRequest(v, b) => AcceptSilent(c, s, v, b);
    case BeginService(v, kind, j, p) => ServeSilent(c, s, v, kind, j, p);
    case AssignTask(v, j, b) => AssignSilent(c, s, v, j, b);
    case ReconcileAll => TasksSilent(c, s);
    case Synchronize => SyncSilent(c, s);
    case NoteArrivals(before) => ArriveSilent(c, before, s);
  }

  lemma ApplyHistory(c: Scenario, s: State, d: Decision)
    requires WellFormed(c) && Stable(c, s) && Enabled(c, s, d) && History(c, s)
    ensures History(c, Apply(c, s, d))
  {
    hide Inv, Calm, History, Uneventful, Interval;
    if d.Proceed? {
      AllowedIsReachable(c, s, d.acts, d.k);
      IntervalHistory(c, s, d.acts, d.k);
    } else if d.StartJob? {
      InvKeys(c, s);
      StartHistory(c, s, d.m, d.j, d.mode);
    } else {
      DecisionSilent(c, s, d);
      SilentHistory(c, s, Apply(c, s, d));
    }
  }

  lemma {:induction false} RunHistory(c: Scenario, s: State, run: seq<Decision>, t: State)
    requires WellFormed(c) && Stable(c, s) && Leads(c, s, run, t) && History(c, s)
    ensures History(c, t)
    decreases |run|
  {
    hide Inv, Calm, History, Apply, Enabled;
    if run != [] {
      ApplyStable(c, s, run[0]);
      ApplyHistory(c, s, run[0]);
      RunHistory(c, Apply(c, s, run[0]), run[1..], t);
    }
  }

  lemma FreshHistory(c: Scenario)
    ensures History(c, Fresh(c))
  {
    var s := Fresh(c);
    forall j ensures Travelled(c, s.jobs, s.log, j) {}
    forall d ensures ShippedOnce(c, s.ledger.shipped, s.log, d) {}
    forall b ensures Served(c, s.queue, s.log, b) {}
  }

  lemma InitialHistory(c: Scenario)
    requires WellFormed(c)
    ensures History(c, Initial(c))
  {
    hide Inv, History, Uneventful;
    FreshIsSafe(c);
    FreshHistory(c);
    var s := Boundary(c, Fresh(c), true);
    BoundaryHistory(c, Fresh(c), true);
    SyncSilent(c, s);
    SilentHistory(c, s, SyncIdle(c, s));
  }

  lemma ShippedJobs(c: Scenario, s: State, d: DemandId)
    requires WellFormed(c) && Inv(c, s) && d in s.ledger.shipped
    ensures d in c.demands && Job(d, 1) in s.jobs && s.jobs[Job(d, 1)].step == |c.demands[d].steps|
  {
    assert Attempted(s.jobs, s.ledger, d);
    var j := Job(d, 1);
    assert LedgerRow(c, s.jobs[j], j, s.ledger) && RowFits(c, j, s.jobs[j]);
  }

  /** In every state of every run: a demand is shipped at most once, and what is shipped has gone
      through all its operations, each exactly once, in order, on machines capable of them; the jobs
      admitted to an Input are the first ones queued for it, in order. */
  lemma ProductsOfRuns(c: Scenario, run: seq<Decision>, t: State, d: DemandId, b: BufferId)
    requires WellFormed(c) && Proper(c.outages) && Disjoint(c.outages) && Leads(c, Initial(c), run, t)
    ensures Shipments(c, t.log, d) == if d in t.ledger.shipped then 1 else 0
    ensures Shipments(c, t.log, d) > 0 ==>
              && d in c.demands && |Trail(t.log, Job(d, 1))| == |c.demands[d].steps|
              && forall i :: 0 <= i < |c.demands[d].steps| ==>
                   var mark := Trail(t.log, Job(d, 1))[i];
                   && mark.step == i && mark.machine in c.machines
                   && c.demands[d].steps[i].opType in c.machines[mark.machine].types
    ensures Arrivals(c, t.log, b) == Admissions(t.log, b) + Waiting(c, t.queue, b)
  {
    hide Inv, Initial, Leads, Trail, Shipments, Arrivals, Admissions, Waiting;
    InitialHistory(c);
    RunHistory(c, Initial(c), run, t);
    LeadsToStable(c, Initial(c), run, t);
    assert ShippedOnce(c, t.ledger.shipped, t.log, d) && Served(c, t.queue, t.log, b);
    if d in t.ledger.shipped {
      ShippedJobs(c, t, d);
      assert Travelled(c, t.jobs, t.log, Job(d, 1));
    }
  }
}
