/** What the event log says about operations and quality: how long every operation was to take and took, in
    which mode it ran, which jobs are flawed, and what was found when they were shipped. */
module Chronicles {
  import opened Collections
  import opened Factory
  import opened Custody
  import opened Safety
  import Durations

  // -- reading the log -------------------------------------------------------------------------

  /** The last operation started on the machine. */
  function LastStart(log: seq<Event>, m: MachineId): Option<Event> {
    if log == [] then None
    else
      var e := log[|log| - 1];
      if e.ProcessingStarted? && e.machine == m then Some(e) else LastStart(log[..|log| - 1], m)
  }

  /** How many operations were completed on the job. */
  function Completed(log: seq<Event>, j: JobId): nat {
    if log == [] then 0
    else
      var e := log[|log| - 1];
      Completed(log[..|log| - 1], j) + if e.ProcessingCompleted? && e.job == j then 1 else 0
  }

  /** The completion is that of a flawed operation: its draw is below the error rate of the mode in which the
      machine was last started. */
  predicate Spoils(c: Scenario, log: seq<Event>, e: Event) {
    && e.ProcessingCompleted? && LastStart(log, e.machine).Some? && LastStart(log, e.machine).value.ProcessingStarted?
    && var mode := LastStart(log, e.machine).value.mode;
       e.machine in c.machines && mode in c.machines[e.machine].modes
       && c.qualityDraw(e.job, e.step) < c.machines[e.machine].modes[mode].errorRate
  }

  /** Some operation of the job was flawed. */
  predicate Flawed(c: Scenario, log: seq<Event>, j: JobId) {
    log != [] &&
    var before, e := log[..|log| - 1], log[|log| - 1];
    Flawed(c, before, j) || (e.ProcessingCompleted? && e.job == j && Spoils(c, before, e))
  }

  /** What was last found about the job's quality. */
  function Finding(log: seq<Event>, j: JobId): Option<Quality> {
    if log == [] then None
    else
      var e := log[|log| - 1];
      if e.QualityRevealed? && e.job == j then Some(e.quality) else Finding(log[..|log| - 1], j)
  }

  predicate IsShipment(c: Scenario, e: Event) {
    e.Transferred? && e.kind.DropOff? && InOutput(c, Stored(e.place))
  }

  /** When the demand was last shipped. */
  function ShippedAt(c: Scenario, log: seq<Event>, d: DemandId): Option<int> {
    if log == [] then None
    else
      var e := log[|log| - 1];
      if IsShipment(c, e) && e.job.demand == d then Some(e.tick) else ShippedAt(c, log[..|log| - 1], d)
  }

  /** A start announces the durations of the job's next operation; a completion is that of the last start on its
      machine and comes after just its actual duration. */
  predicate Announced(c: Scenario, log: seq<Event>, e: Event) {
    e.ProcessingCompleted? ==>
      && LastStart(log, e.machine).Some? && LastStart(log, e.machine).value.ProcessingStarted?
      && LastStart(log, e.machine).value.job == e.job && LastStart(log, e.machine).value.actual == e.elapsed
  }

  ghost predicate Truthful(c: Scenario, log: seq<Event>, e: Event) {
    e.ProcessingStarted? ==> Durations.Takes(c, e.job, Completed(log, e.job), e.machine, e.mode, e.actual, e.nominal)
  }

  ghost predicate Punctual(c: Scenario, log: seq<Event>) {
    forall i {:trigger log[i]} :: 0 <= i < |log| ==> Announced(c, log[..i], log[i]) && Truthful(c, log[..i], log[i])
  }

  // -- the invariant ---------------------------------------------------------------------------

  /** A running machine does what was last started on it, and has the rest of the time left. */
  ghost predicate OnCourse(machines: Machines, log: seq<Event>, m: MachineId)
    requires m in machines
  {
    var row := machines[m];
    row.status.Processing? ==>
      && row.job.Some? && row.mode.Some? && LastStart(log, m).Some? && LastStart(log, m).value.ProcessingStarted?
      && var e := LastStart(log, m).value;
         e.job == row.job.value && e.mode == row.mode.value && e.actual == row.remaining + row.elapsed && e.nominal == row.nominal
  }

  /** A job is defective exactly if it is flawed; nothing is found before it is shipped, and then just that. */
  ghost predicate Judged(c: Scenario, jobs: Rows, shipped: set<DemandId>, log: seq<Event>, j: JobId) {
    if j !in jobs then !Flawed(c, log, j) && Finding(log, j).None? && Completed(log, j) == 0
    else
      && jobs[j].defective == Flawed(c, log, j) && jobs[j].step == Completed(log, j)
      && (if j.demand in shipped then Finding(log, j) == Some(jobs[j].quality) && jobs[j].quality == (if jobs[j].defective then Failed else Passed)
          else Finding(log, j).None? && jobs[j].quality == Unknown)
  }

  ghost predicate Booked(c: Scenario, jobs: Rows, l: Ledger, log: seq<Event>, d: DemandId) {
    && (d in l.good <==> d in l.shipped && Job(d, 1) in jobs && !jobs[Job(d, 1)].defective)
    && ShippedAt(c, log, d) == (if d in l.shipmentTimes then Some(l.shipmentTimes[d]) else None)
  }

  ghost predicate Chronicle(c: Scenario, s: State) {
    && Punctual(c, s.log)
    && (forall m {:trigger OnCourse(s.machines, s.log, m)} :: m in s.machines ==> OnCourse(s.machines, s.log, m))
    && (forall j {:trigger Judged(c, s.jobs, s.ledger.shipped, s.log, j)} :: Judged(c, s.jobs, s.ledger.shipped, s.log, j))
    && (forall d {:trigger Booked(c, s.jobs, s.ledger, s.log, d)} :: Booked(c, s.jobs, s.ledger, s.log, d))
  }

  // -- changes the chronicle does not notice ---------------------------------------------------

  /** Events that say nothing about operations, quality and shipments. */
  predicate Mute(c: Scenario, e: Event) {
    !e.ProcessingStarted? && !e.ProcessingCompleted? && !e.QualityRevealed? && !IsShipment(c, e)
  }

  ghost predicate MuteFrom(c: Scenario, log: seq<Event>, n: nat) {
    forall i {:trigger log[i]} :: n <= i < |log| ==> Mute(c, log[i])
  }

  ghost predicate SameJudgement(jobs: Rows, shipped: set<DemandId>, after: Rows, j: JobId)
    requires j in after
  {
    if j in jobs then after[j].defective == jobs[j].defective && after[j].quality == jobs[j].quality && after[j].step == jobs[j].step
    else !after[j].defective && after[j].quality == Unknown && after[j].step == 0 && j.demand !in shipped
  }

  ghost predicate SameCourse(before: MachineRow, after: MachineRow) {
    after.status.Processing? ==>
      && before.status.Processing? && after.job == before.job && after.mode == before.mode && after.nominal == before.nominal
      && after.remaining + after.elapsed == before.remaining + before.elapsed
  }

  /** Jobs, running machines and the ledger say the same as before; new jobs are unblemished. */
  ghost predicate Undisturbed(c: Scenario, s: State, t: State) {
    && s.log <= t.log && MuteFrom(c, t.log, |s.log|)
    && s.jobs.Keys <= t.jobs.Keys && t.machines.Keys == s.machines.Keys
    && (forall j {:trigger SameJudgement(s.jobs, s.ledger.shipped, t.jobs, j)} ::
          j in t.jobs ==> SameJudgement(s.jobs, s.ledger.shipped, t.jobs, j))
    && (forall m {:trigger SameCourse(s.machines[m], t.machines[m])} :: m in t.machines ==> SameCourse(s.machines[m], t.machines[m]))
    && t.ledger.shipped == s.ledger.shipped && t.ledger.good == s.ledger.good && t.ledger.shipmentTimes == s.ledger.shipmentTimes
  }

  lemma {:induction false} MuteTail(c: Scenario, log: seq<Event>, n: nat)
    requires n <= |log| && MuteFrom(c, log, n)
    ensures forall m :: LastStart(log, m) == LastStart(log[..n], m)
    ensures forall j :: Completed(log, j) == Completed(log[..n], j) && Flawed(c, log, j) == Flawed(c, log[..n], j) && Finding(log, j) == Finding(log[..n], j)
    ensures forall d :: ShippedAt(c, log, d) == ShippedAt(c, log[..n], d)
    ensures Punctual(c, log[..n]) ==> Punctual(c, log)
  {
    if n < |log| {
      var less := log[..|log| - 1];
      assert forall i :: n <= i < |less| ==> less[i] == log[i];
      MuteTail(c, less, n);
      assert less[..n] == log[..n];
      assert Mute(c, log[|log| - 1]);
      if Punctual(c, less) { PunctualMore(c, less, log[|log| - 1]); assert log == less + [log[|log| - 1]]; }
    } else {
      assert log[..n] == log;
    }
  }

  lemma PunctualMore(c: Scenario, log: seq<Event>, e: Event)
    requires Punctual(c, log) && Announced(c, log, e) && Truthful(c, log, e)
    ensures Punctual(c, log + [e])
  {
    var more := log + [e];
    forall i | 0 <= i < |more| ensures Announced(c, more[..i], more[i]) && Truthful(c, more[..i], more[i]) {
      assert more[..i] == log[..i];
      if i == |log| { assert log[..i] == log; } else { assert more[i] == log[i]; }
    }
  }

  lemma UndisturbedChronicle(c: Scenario, s: State, t: State)
    requires Chronicle(c, s) && Undisturbed(c, s, t)
    ensures Chronicle(c, t)
  {
    MuteTail(c, t.log, |s.log|);
    assert t.log[..|s.log|] == s.log;
    hide LastStart, Completed, Flawed, Finding, ShippedAt, Punctual, MuteFrom;
    forall m | m in t.machines ensures OnCourse(t.machines, t.log, m) { assert OnCourse(s.machines, s.log, m) && SameCourse(s.machines[m], t.machines[m]); }
    forall j ensures Judged(c, t.jobs, t.ledger.shipped, t.log, j) {
      assert Judged(c, s.jobs, s.ledger.shipped, s.log, j);
      if j in t.jobs { assert SameJudgement(s.jobs, s.ledger.shipped, t.jobs, j); }
    }
    forall d ensures Booked(c, t.jobs, t.ledger, t.log, d) {
      assert Booked(c, s.jobs, s.ledger, s.log, d);
      if Job(d, 1) in t.jobs { assert SameJudgement(s.jobs, s.ledger.shipped, t.jobs, Job(d, 1)); }
    }
  }

  lemma UndisturbedMore(c: Scenario, s: State, u: State, t: State)
    requires Undisturbed(c, s, u) && Undisturbed(c, u, t)
    ensures Undisturbed(c, s, t)
  {
    forall i | |s.log| <= i < |t.log| ensures Mute(c, t.log[i]) {
      if i < |u.log| { assert t.log[i] == u.log[i]; }
    }
    forall j | j in t.jobs ensures SameJudgement(s.jobs, s.ledger.shipped, t.jobs, j) {
      assert SameJudgement(u.jobs, u.ledger.shipped, t.jobs, j);
      if j in u.jobs { assert SameJudgement(s.jobs, s.ledger.shipped, u.jobs, j); }
    }
    forall m | m in t.machines ensures SameCourse(s.machines[m], t.machines[m]) {
      assert SameCourse(u.machines[m], t.machines[m]) && SameCourse(s.machines[m], u.machines[m]);
    }
  }

  // -- changes it notices ----------------------------------------------------------------------

  /** One more event. */
  lemma ReadAll(c: Scenario, log: seq<Event>, e: Event)
    ensures var more := log + [e];
            && (forall m :: LastStart(more, m) == if e.ProcessingStarted? && e.machine == m then Some(e) else LastStart(log, m))
            && (forall j :: Completed(more, j) == Completed(log, j) + if e.ProcessingCompleted? && e.job == j then 1 else 0)
            && (forall j :: Flawed(c, more, j) == (Flawed(c, log, j) || (e.ProcessingCompleted? && e.job == j && Spoils(c, log, e))))
            && (forall j :: Finding(more, j) == if e.QualityRevealed? && e.job == j then Some(e.quality) else Finding(log, j))
            && (forall d :: ShippedAt(c, more, d) == if IsShipment(c, e) && e.job.demand == d then Some(e.tick) else ShippedAt(c, log, d))
  {
    var more := log + [e];
    assert more[..|more| - 1] == log;
  }

  lemma StartChronicle(c: Scenario, s: State, t: State, m: MachineId, j: JobId, mode: ModeId)
    requires Chronicle(c, s) && Durations.Begun(c, s, t, m, j, mode)
    ensures Chronicle(c, t)
  {
    var e := ProcessingStarted(s.tick, m, j, mode, t.machines[m].nominal, t.machines[m].remaining);
    ReadAll(c, s.log, e);
    assert Judged(c, s.jobs, s.ledger.shipped, s.log, j);
    PunctualMore(c, s.log, e);
    hide LastStart, Completed, Flawed, Finding, ShippedAt, Punctual, Durations.Takes;
    forall x | x in t.machines ensures OnCourse(t.machines, t.log, x) { if x != m { assert OnCourse(s.machines, s.log, x); } }
    forall i ensures Judged(c, t.jobs, t.ledger.shipped, t.log, i) { assert Judged(c, s.jobs, s.ledger.shipped, s.log, i); }
    forall d ensures Booked(c, t.jobs, t.ledger, t.log, d) { assert Booked(c, s.jobs, s.ledger, s.log, d); }
  }

  /** The operation on the machine ends after its time, flawed or not. */
  ghost predicate Ended(c: Scenario, s: State, t: State, m: MachineId, j: JobId) {
    && m in s.machines && m in t.machines && s.machines[m].status.Processing? && s.machines[m].job == Some(j) && j in s.jobs && j in t.jobs
    && s.machines[m].mode.Some? && m in c.machines && s.machines[m].mode.value in c.machines[m].modes
    && t.machines == s.machines[m := t.machines[m]] && !t.machines[m].status.Processing?
    && t.jobs == s.jobs[j := s.jobs[j].(step := s.jobs[j].step + 1, quality := Unknown, defective := t.jobs[j].defective)]
    && t.jobs[j].defective == (s.jobs[j].defective || c.qualityDraw(j, s.jobs[j].step) < c.machines[m].modes[s.machines[m].mode.value].errorRate)
    && t.log == s.log + [ProcessingCompleted(s.tick, j, m, s.jobs[j].step, s.machines[m].remaining + s.machines[m].elapsed)]
    && t.ledger == s.ledger
  }

  lemma FinishChronicle(c: Scenario, s: State, t: State, m: MachineId, j: JobId)
    requires Chronicle(c, s) && Ended(c, s, t, m, j) && j.demand !in s.ledger.shipped
    ensures Chronicle(c, t)
  {
    var e := ProcessingCompleted(s.tick, j, m, s.jobs[j].step, s.machines[m].remaining + s.machines[m].elapsed);
    ReadAll(c, s.log, e);
    assert OnCourse(s.machines, s.log, m);
    PunctualMore(c, s.log, e);
    hide LastStart, Completed, Flawed, Finding, ShippedAt, Punctual;
    forall x | x in t.machines ensures OnCourse(t.machines, t.log, x) { if x != m { assert OnCourse(s.machines, s.log, x); } }
    forall i ensures Judged(c, t.jobs, t.ledger.shipped, t.log, i) { assert Judged(c, s.jobs, s.ledger.shipped, s.log, i); }
    forall d ensures Booked(c, t.jobs, t.ledger, t.log, d) {
      assert Booked(c, s.jobs, s.ledger, s.log, d);
    }
  }

  /** The job's demand is shipped, its quality found. */
  ghost predicate Found(c: Scenario, s: State, t: State, j: JobId, x: Event, e: Event, y: Event) {
    && j in s.jobs && j in t.jobs && t.jobs == s.jobs[j := t.jobs[j]] && t.machines == s.machines
    && t.jobs[j].defective == s.jobs[j].defective && t.jobs[j].step == s.jobs[j].step
    && t.jobs[j].quality == (if s.jobs[j].defective then Failed else Passed)
    && t.log == s.log + [x] + [e] + [y] && x.QualityRevealed? && x.job == j && x.quality == t.jobs[j].quality
    && IsShipment(c, e) && e.job == j && e.tick == s.tick && Mute(c, y)
    && t.ledger.shipped == s.ledger.shipped + {j.demand} && t.ledger.shipmentTimes == s.ledger.shipmentTimes[j.demand := s.tick]
    && t.ledger.good == s.ledger.good + (if s.jobs[j].defective then {} else {j.demand})
  }

  lemma ThreeMore(c: Scenario, log: seq<Event>, x: Event, e: Event, y: Event)
    requires x.QualityRevealed? && IsShipment(c, e) && Mute(c, y)
    ensures var more := log + [x] + [e] + [y];
            && (forall m :: LastStart(more, m) == LastStart(log, m))
            && (forall j :: Completed(more, j) == Completed(log, j) && Flawed(c, more, j) == Flawed(c, log, j))
            && (forall j :: Finding(more, j) == if x.job == j then Some(x.quality) else Finding(log, j))
            && (forall d :: ShippedAt(c, more, d) == if e.job.demand == d then Some(e.tick) else ShippedAt(c, log, d))
            && (Punctual(c, log) ==> Punctual(c, more))
  {
    ReadAll(c, log, x);
    ReadAll(c, log + [x], e);
    ReadAll(c, log + [x] + [e], y);
    if Punctual(c, log) {
      PunctualMore(c, log, x);
      PunctualMore(c, log + [x], e);
      PunctualMore(c, log + [x] + [e], y);
    }
    hide LastStart, Completed, Flawed, Finding, ShippedAt, Punctual;
  }

  lemma ShipChronicle(c: Scenario, s: State, t: State, j: JobId, x: Event, e: Event, y: Event)
    requires Chronicle(c, s) && Found(c, s, t, j, x, e, y) && j.demand !in s.ledger.shipped && j == Job(j.demand, 1)
    requires forall i :: i in s.jobs && i.demand == j.demand ==> i == j
    ensures Chronicle(c, t)
  {
    ThreeMore(c, s.log, x, e, y);
    hide LastStart, Completed, Flawed, Finding, ShippedAt, Punctual, IsShipment, Mute;
    forall m | m in t.machines ensures OnCourse(t.machines, t.log, m) { assert OnCourse(s.machines, s.log, m); }
    forall i ensures Judged(c, t.jobs, t.ledger.shipped, t.log, i) { assert Judged(c, s.jobs, s.ledger.shipped, s.log, i); }
    forall d ensures Booked(c, t.jobs, t.ledger, t.log, d) { assert Booked(c, s.jobs, s.ledger, s.log, d); }
  }
}
