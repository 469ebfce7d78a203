/** Whole runs under either controller: any sequence of enabled decisions and intervals. */
module Runs {
  import opened Availability
  import opened Factory
  import opened Custody
  import opened Safety
  import opened Operations
  import opened Settling
  import opened Handling
  import opened Reservations
  import opened CentralSafety
  import opened Physics
  import opened Stepping
  import opened Checks
  import opened Conservation

  datatype Decision =
    | CancelStale(v: AgvId)
    | StartJob(m: MachineId, j: JobId, mode: ModeId)
    | AcceptRequest(v: AgvId, b: BufferId)
    | BeginService(v: AgvId, kind: Kind, j: JobId, p: Place)
    | AssignTask(v: AgvId, j: JobId, b: BufferId)
    | ReconcileAll
    | Synchronize
    | NoteArrivals(before: map<AgvId, Cell>)
    | Proceed(acts: Actions, k: int)

  /** A vehicle without reservation may apply to the owner, quota aside. */
  predicate Applicable(c: Scenario, s: State, v: AgvId, b: BufferId)
    requires WellFormed(c) && Inv(c, s)
  {
    && Unbound(s, v) && b in c.buffers && Eligible(c, s, b) && c.reaches(s.agvs[v].cell, b)
    && match s.agvs[v].job
       case None => IsSource(c, b)
       case Some(j) => j in s.jobs && IsDestination(c, j, s.jobs[j].step, b)
  }

  /** `candidate_owners`: eligible owners with a quota that the vehicle can reach. */
  predicate Candidate(c: Scenario, s: State, v: AgvId, b: BufferId)
    requires WellFormed(c) && Inv(c, s)
  {
    Applicable(c, s, v, b) && Quota(c, s, b) > 0
  }

  /** A transport candidate of the centralized controller. */
  predicate Transport(c: Scenario, s: State, v: AgvId, j: JobId, b: BufferId)
    requires WellFormed(c) && Inv(c, s)
  {
    && c.central && Unbound(s, v) && j in s.jobs && b in c.buffers
    && (forall w :: w in s.assignments ==> s.assignments[w].job != j)
    && IsDestination(c, j, s.jobs[j].step, b) && Eligible(c, s, b) && Quota(c, s, b) > 0
    && c.reaches(s.agvs[v].cell, b)
    && match s.agvs[v].job
       case Some(i) => i == j
       case None => s.jobs[j].loc.Stored? && IsSource(c, s.jobs[j].loc.place.owner) && Eligible(c, s, s.jobs[j].loc.place.owner)
                    && c.reaches(s.agvs[v].cell, s.jobs[j].loc.place.owner)
  }

  /** What the code checks before it performs the decision. */
  ghost predicate Enabled(c: Scenario, s: State, d: Decision)
    requires WellFormed(c) && Stable(c, s)
  {
    match d
    case CancelStale(v) => v in s.agvs
    case StartJob(m, j, mode) =>
      Startable(c, s, m, j, mode) && forall v :: v in s.assignments ==> s.assignments[v].job != j
    case AcceptRequest(v, b) => !c.central && Candidate(c, s, v, b)
    case BeginService(v, kind, j, p) => Servable(c, s, v, kind, j, p)
    case AssignTask(v, j, b) => Transport(c, s, v, j, b)
    case ReconcileAll => c.central
    case Synchronize => true
    case NoteArrivals(before) => true
    case Proceed(acts, k) => Allowed(c, s, acts, k)
  }

  lemma AllowedIsReachable(c: Scenario, s: State, acts: Actions, k: int)
    requires WellFormed(c) && Inv(c, s) && Allowed(c, s, acts, k)
    ensures Reachable(s, k)
  {
    if k == 1 { OneTickIsReachable(c, s); }
  }

  function Apply(c: Scenario, s: State, d: Decision): State
    requires WellFormed(c) && Stable(c, s) && Enabled(c, s, d)
  {
    match d
    case CancelStale(v) => Cancel(c, s, v)
    case StartJob(m, j, mode) => Start(c, s, m, j, mode)
    case AcceptRequest(v, b) => Accept(c, s, v, b)
    case BeginService(v, kind, j, p) => Serve(s, v, kind, j, p)
    case AssignTask(v, j, b) => Assign(c, s, v, j, b)
    case ReconcileAll => ReconcileTasks(c, s)
    case Synchronize => SyncIdle(c, s)
    case NoteArrivals(before) => Arrive(c, before, s)
    case Proceed(acts, k) =>
      AllowedIsReachable(c, s, acts, k);
      Interval(c, s, acts, k)
  }

  // -- stability through decisions -------------------------------------------------------------

  /** Decisions about vehicles leave jobs, lists and machines alone. */
  ghost predicate SameWorks(s: State, t: State) {
    && t.jobs == s.jobs && t.queue == s.queue && t.storage == s.storage && t.machines == s.machines
    && t.tick == s.tick && t.ledger == s.ledger
  }

  lemma SameWorksCalm(c: Scenario, s: State, t: State)
    requires Calm(c, s) && SameWorks(s, t) && Aimed(t.agvs, t.assignments) && ClocksKnown(c, t)
    ensures Calm(c, t)
  {
  }

  lemma CancelCalm(c: Scenario, s: State, v: AgvId)
    requires Calm(c, s) && v in s.agvs
    ensures Calm(c, Cancel(c, s, v))
  {
    var t := Cancel(c, s, v);
    CancelClocks(c, s, v);
    forall w | w in t.assignments ensures HeadsOut(t.agvs, w) { assert HeadsOut(s.agvs, w); }
    SameWorksCalm(c, s, t);
  }

  lemma AcceptCalm(c: Scenario, s: State, v: AgvId, b: BufferId)
    requires Calm(c, s) && v in s.agvs
    ensures Calm(c, Accept(c, s, v, b))
  {
    var t := Accept(c, s, v, b);
    SyncClocks(c, s.(agvs := t.agvs, log := t.log));
    forall w | w in t.assignments ensures HeadsOut(t.agvs, w) { assert HeadsOut(s.agvs, w); }
    SameWorksCalm(c, s, t);
  }

  lemma ServeCalm(c: Scenario, s: State, v: AgvId, kind: Kind, j: JobId, p: Place)
    requires Calm(c, s) && v in s.agvs && s.agvs[v].target.Some?
    ensures Calm(c, Serve(s, v, kind, j, p))
  {
    var t := Serve(s, v, kind, j, p);
    ClocksStay(c, s, t, v);
    forall w | w in t.assignments ensures HeadsOut(t.agvs, w) { assert HeadsOut(s.agvs, w); }
    SameWorksCalm(c, s, t);
  }

  lemma AssignCalm(c: Scenario, s: State, v: AgvId, j: JobId, b: BufferId)
    requires Calm(c, s) && v in s.agvs && j in s.jobs && (s.agvs[v].job.None? ==> s.jobs[j].loc.Stored?)
    ensures Calm(c, Assign(c, s, v, j, b))
  {
    var t := Assign(c, s, v, j, b);
    ClocksStay(c, s, t, v);
    forall w | w in t.assignments ensures HeadsOut(t.agvs, w) {
      if w != v { assert HeadsOut(s.agvs, w); }
    }
    SameWorksCalm(c, s, t);
  }

  lemma StartCalm(c: Scenario, s: State, m: MachineId, j: JobId, mode: ModeId)
    requires WellFormed(c) && Shaped(c, s) && Startable(c, s, m, j, mode) && Calm(c, s)
    ensures Calm(c, Start(c, s, m, j, mode))
  {
    var t := Start(c, s, m, j, mode);
    assert GoodMachine(c, m);
    forall i | i in t.queue ensures QueueStuck(c, t.storage, i) {
      assert QueueStuck(c, s.storage, i) && GoodDemand(c, i.demand);
      CrammedElsewhere(c, s, t, c.pre[m], c.demands[i.demand].input);
    }
    forall x | x in t.machines ensures MachineStuck(c, t.jobs, t.machines, t.storage, x) && FlagCurrent(c, t.machines, x, t.tick) {
      assert MachineStuck(c, s.jobs, s.machines, s.storage, x) && FlagCurrent(c, s.machines, x, s.tick) && GoodMachine(c, x);
      if t.machines[x].status.Blocked? { CrammedElsewhere(c, s, t, c.pre[m], c.post[x]); }
    }
  }

  lemma CrammedElsewhere(c: Scenario, s: State, t: State, from: BufferId, b: BufferId)
    requires Crammed(c, s.storage, b) && b != from && t.storage.Keys == s.storage.Keys
    requires forall p :: p in s.storage && p.owner != from ==> t.storage[p] == s.storage[p]
    ensures Crammed(c, t.storage, b)
  {
    forall k | KnownPlace(c, Place(b, k)) ensures FullPlace(c, t.storage, Place(b, k)) {
      assert FullPlace(c, s.storage, Place(b, k));
    }
  }

  lemma SyncCalm(c: Scenario, s: State)
    requires Calm(c, s)
    ensures Calm(c, SyncIdle(c, s))
  {
    SyncClocks(c, s);
    SameWorksCalm(c, s, SyncIdle(c, s));
  }

  lemma ArriveCalm(c: Scenario, before: map<AgvId, Cell>, s: State)
    requires Calm(c, s)
    ensures Calm(c, Arrive(c, before, s))
  {
    var t := Arrive(c, before, s);
    if !Done(c, t) {
      forall v | v in t.agvs ensures Clocked(t.agvs, t.idleSince, v) { assert Clocked(s.agvs, s.idleSince, v); }
    }
    forall w | w in t.assignments ensures HeadsOut(t.agvs, w) { assert HeadsOut(s.agvs, w); }
    SameWorksCalm(c, s, t);
  }

  lemma ReconcilesCalm(c: Scenario, s: State)
    requires WellFormed(c) && Inv(c, s) && Calm(c, s)
    ensures Calm(c, ReconcileTasks(c, s))
  {
    var t := ReconcileTasks(c, s);
    FirmIsAimed(c, t);
    SameWorksCalm(c, s, t);
  }

  // -- every enabled decision keeps the state stable -------------------------------------------

  lemma ApplyKeeps(c: Scenario, s: State, d: Decision)
    requires WellFormed(c) && Stable(c, s) && Enabled(c, s, d) && !d.Proceed?
    ensures Inv(c, Apply(c, s, d))
  {
    hide Inv, Calm, Cancel, Start, Accept, Serve, Assign, ReconcileTasks, Arrive, SyncIdle, Quota;
    match d
    case CancelStale(v) => CancelKeeps(c, s, v);
    case StartJob(m, j, mode) => StartKeeps(c, s, m, j, mode);
    case AcceptRequest(v, b) =>
      QuotaMeansVacancy(c, s, b);
      AcceptKeeps(c, s, v, b);
    case BeginService(v, kind, j, p) => ServeKeeps(c, s, v, kind, j, p);
    case AssignTask(v, j, b) =>
      QuotaMeansVacancy(c, s, b);
      AssignKeeps(c, s, v, j, b);
    case ReconcileAll =>
    case Synchronize => SyncKeeps(c, s);
    case NoteArrivals(before) => ArriveKeeps(c, before, s);
  }

  lemma DecisionLedger(c: Scenario, s: State, d: Decision)
    requires WellFormed(c) && Stable(c, s) && Enabled(c, s, d) && !d.Proceed?
    ensures Apply(c, s, d).ledger == s.ledger && Apply(c, s, d).tick == s.tick
  {
    hide WellFormed, Stable, Enabled;
  }

  lemma SameDue(c: Scenario, s: State, t: State)
    requires DueReleased(c, s) && t.ledger == s.ledger && t.tick == s.tick
    ensures DueReleased(c, t)
  {
  }

  lemma ApplyCalm(c: Scenario, s: State, d: Decision)
    requires WellFormed(c) && Stable(c, s) && Enabled(c, s, d) && !d.Proceed?
    ensures Calm(c, Apply(c, s, d)) && DueReleased(c, Apply(c, s, d))
  {
    hide Calm, Quota, Cancel, Start, Accept, Serve, Assign, ReconcileTasks, Arrive, SyncIdle, DueReleased;
    DecisionLedger(c, s, d);
    SameDue(c, s, Apply(c, s, d));
    match d
    case CancelStale(v) => CancelCalm(c, s, v);
    case StartJob(m, j, mode) => StartCalm(c, s, m, j, mode);
    case AcceptRequest(v, b) => AcceptCalm(c, s, v, b);
    case BeginService(v, kind, j, p) => ServeCalm(c, s, v, kind, j, p);
    case AssignTask(v, j, b) => AssignCalm(c, s, v, j, b);
    case ReconcileAll => ReconcilesCalm(c, s);
    case Synchronize => SyncCalm(c, s);
    case NoteArrivals(before) => ArriveCalm(c, before, s);
  }

  lemma ApplyStable(c: Scenario, s: State, d: Decision)
    requires WellFormed(c) && Stable(c, s) && Enabled(c, s, d)
    ensures Stable(c, Apply(c, s, d))
  {
    if !d.Proceed? {
      ApplyKeeps(c, s, d);
      ApplyCalm(c, s, d);
    } else {
      DueNotEarly(c, s);
    }
  }

  // -- runs ------------------------------------------------------------------------------------

  /** `run` leads from `s` to `t`, every decision being enabled when it is taken. */
  ghost predicate Leads(c: Scenario, s: State, run: seq<Decision>, t: State)
    requires WellFormed(c) && Stable(c, s)
    decreases |run|
  {
    if run == [] then t == s
    else
      && Enabled(c, s, run[0])
      && (ApplyStable(c, s, run[0]); Leads(c, Apply(c, s, run[0]), run[1..], t))
  }

  lemma {:induction false} LeadsToStable(c: Scenario, s: State, run: seq<Decision>, t: State)
    requires WellFormed(c) && Stable(c, s) && Leads(c, s, run, t)
    ensures Stable(c, t)
    decreases |run|
  {
    if run != [] {
      ApplyStable(c, s, run[0]);
      LeadsToStable(c, Apply(c, s, run[0]), run[1..], t);
    }
  }

  /** Whatever the policies and movers answer, in every state of every run both self-checks of the
      simulator pass. */
  lemma RunsNeverFail(c: Scenario, run: seq<Decision>, t: State)
    requires WellFormed(c) && Proper(c.outages) && Disjoint(c.outages)
    requires Leads(c, Initial(c), run, t)
    ensures Check(c, t) && CheckReservations(c, t)
  {
    LeadsToStable(c, Initial(c), run, t);
    CheckNeverFails(c, t);
    ReservationsNeverFail(c, t);
  }

  /** A PRE holds only jobs its machine can process next, a POST only jobs that are finished or need
      another machine, the Output only finished jobs. */
  ghost predicate RightPlace(c: Scenario, jobs: map<JobId, JobRow>, j: JobId)
    requires j in jobs
  {
    var row := jobs[j];
    row.loc.Stored? ==>
      row.loc.place.owner in c.buffers && j.demand in c.demands &&
      match c.buffers[row.loc.place.owner].role
      case Input => true
      case Output => row.step == |c.demands[j.demand].steps|
      case Pre(m) => Capable(c, j, row.step, m)
      case Post(m) => !Capable(c, j, row.step, m)
  }

  /** A loaded vehicle heads for a legal destination of its job, an empty one for a source. */
  ghost predicate HeadsLegally(c: Scenario, jobs: map<JobId, JobRow>, a: AgvRow) {
    a.target.Some? ==>
      if a.job.Some? then a.job.value in jobs && IsDestination(c, a.job.value, jobs[a.job.value].step, a.target.value)
      else IsSource(c, a.target.value)
  }

  /** In every state of every run, jobs are where they can go on and vehicles head for legal places. */
  lemma PlacesOfRuns(c: Scenario, run: seq<Decision>, t: State)
    requires WellFormed(c) && Proper(c.outages) && Disjoint(c.outages)
    requires Leads(c, Initial(c), run, t)
    ensures forall j :: j in t.jobs ==> RightPlace(c, t.jobs, j)
    ensures forall v :: v in t.agvs ==> HeadsLegally(c, t.jobs, t.agvs[v])
  {
    hide Leads, Initial, Calm, Capable, IsDestination;
    LeadsToStable(c, Initial(c), run, t);
    forall j | j in t.jobs ensures RightPlace(c, t.jobs, j) { assert RowFits(c, j, t.jobs[j]); }
    forall v | v in t.agvs ensures HeadsLegally(c, t.jobs, t.agvs[v]) { assert VehicleOk(c, t.jobs, t.agvs[v]); }
  }
}
