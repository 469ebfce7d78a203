/** Quality and return of whole runs, read off the event log: what passes, what fails, and what that and
    every late tick cost. */
module Returns {
  import opened Collections
  import opened Availability
  import opened Factory
  import opened Safety
  import opened Settling
  import opened Stepping
  import opened Runs
  import opened Chronicles
  import opened Rewards
  import Deliveries
  import Trails

  /** The log of every run is punctual: every start announces the right durations, and every completion is that
      of the last start on its machine, exactly its actual duration of running ticks later. Running machines are
      on course to that. */
  lemma PunctualRuns(c: Scenario, run: seq<Decision>, t: State)
    requires WellFormed(c) && Proper(c.outages) && Disjoint(c.outages) && Leads(c, Initial(c), run, t)
    ensures Punctual(c, t.log) && forall m :: m in t.machines ==> OnCourse(t.machines, t.log, m)
  {
    ChronicleOfRun(c, run, t);
    hide Punctual, OnCourse;
  }

  lemma ChronicleOfRun(c: Scenario, run: seq<Decision>, t: State)
    requires WellFormed(c) && Proper(c.outages) && Disjoint(c.outages) && Leads(c, Initial(c), run, t)
    ensures Chronicle(c, t) && Stable(c, t) && Inv(c, t) && DueReleased(c, t)
  {
    hide Inv, Initial, Leads, Chronicle;
    Trails.InitialHistory(c);
    Trails.RunHistory(c, Initial(c), run, t);
    LeadsToStable(c, Initial(c), run, t);
  }

  /** In every state of every run: the finding at a demand's shipment is failure exactly if some completed
      operation of its job was flawed; the demand counts as good exactly if it was found to pass; and its
      shipment time is that of the shipment in the log. */
  lemma QualityOfRuns(c: Scenario, run: seq<Decision>, t: State, d: DemandId)
    requires WellFormed(c) && Proper(c.outages) && Disjoint(c.outages) && Leads(c, Initial(c), run, t)
    ensures d in t.ledger.shipped ==> Finding(t.log, Job(d, 1)) == Some(if Flawed(c, t.log, Job(d, 1)) then Failed else Passed)
    ensures d !in t.ledger.shipped ==> Finding(t.log, Job(d, 1)).None?
    ensures d in t.ledger.good <==> Finding(t.log, Job(d, 1)) == Some(Passed)
    ensures d in t.ledger.shipped <==> ShippedAt(c, t.log, d).Some?
    ensures d in t.ledger.shipped ==> d in t.ledger.shipmentTimes && ShippedAt(c, t.log, d) == Some(t.ledger.shipmentTimes[d])
  {
    ChronicleOfRun(c, run, t);
    ShippedJob(c, t, d);
    assert Judged(c, t.jobs, t.ledger.shipped, t.log, Job(d, 1)) && Booked(c, t.jobs, t.ledger, t.log, d);
    hide Flawed, Finding, ShippedAt, Completed, Inv, WellFormed;
  }

  lemma ShippedJob(c: Scenario, t: State, d: DemandId)
    requires WellFormed(c) && Inv(c, t)
    ensures d in t.ledger.shipped ==> Job(d, 1) in t.jobs && d in c.demands
    ensures t.ledger.shipmentTimes.Keys == t.ledger.shipped && t.ledger.good <= t.ledger.shipped
  {
    if d in t.ledger.shipped { assert Attempted(t.jobs, t.ledger, d); }
  }

  // -- the return ------------------------------------------------------------------------------

  /** When a demand stopped being outstanding, or now. */
  function Until(c: Scenario, log: seq<Event>, tick: int, d: DemandId): int {
    if ShippedAt(c, log, d).Some? then ShippedAt(c, log, d).value else tick
  }

  predicate PastDue(c: Scenario, d: DemandId, tick: int)
    requires d in c.demands
  {
    c.demands[d].dueAt <= tick
  }

  /** The ticks in which the demand was released, not yet shipped, and past its due time. */
  ghost function LateTicks(c: Scenario, log: seq<Event>, tick: int, d: DemandId): set<int>
    requires d in c.demands
  {
    set x: int {:trigger PastDue(c, d, x)} | c.demands[d].releaseAt <= x < Until(c, log, tick, d) && PastDue(c, d, x)
  }

  ghost function LateSum(c: Scenario, log: seq<Event>, tick: int, ids: seq<DemandId>): int
    requires forall d :: d in ids ==> d in c.demands
  {
    if ids == [] then 0 else |LateTicks(c, log, tick, ids[0])| + LateSum(c, log, tick, ids[1..])
  }

  /** The shipped demands with a flawed operation. */
  ghost function FailedDemands(c: Scenario, log: seq<Event>): set<DemandId> {
    set d | d in c.demands && ShippedAt(c, log, d).Some? && Flawed(c, log, Job(d, 1))
  }

  lemma {:induction false} CountRange(a: int, b: int, ticks: set<int>)
    requires forall x :: x in ticks <==> a <= x < b
    ensures |ticks| == Max(0, b - a)
    decreases b - a
  {
    if a < b {
      CountRange(a, b - 1, ticks - {b - 1});
      assert |ticks - {b - 1}| == |ticks| - 1;
    } else {
      assert forall x :: x !in ticks;
      assert |ticks| == 0;
    }
  }

  lemma TermIsCount(c: Scenario, t: State, d: DemandId)
    requires d in c.demands && (d in t.ledger.released <==> c.demands[d].releaseAt <= t.tick)
    requires ShippedAt(c, t.log, d) == if d in t.ledger.shipmentTimes then Some(t.ledger.shipmentTimes[d]) else None
    requires d in t.ledger.shipmentTimes ==> c.demands[d].releaseAt <= t.ledger.shipmentTimes[d] <= t.tick
    ensures TotalTerm(c, t.ledger, t.tick, d) == |LateTicks(c, t.log, t.tick, d)|
  {
    var end, release, due := Until(c, t.log, t.tick, d), c.demands[d].releaseAt, c.demands[d].dueAt;
    forall x ensures x in LateTicks(c, t.log, t.tick, d) <==> Max(release, due) <= x < end { assert PastDue(c, d, x) <==> due <= x; }
    CountRange(Max(release, due), end, LateTicks(c, t.log, t.tick, d));
  }

  /** Demands are shipped after their release and not in the future. */
  ghost predicate InTime(c: Scenario, l: Ledger, tick: int) {
    forall d :: d in l.shipmentTimes ==> d in c.demands && c.demands[d].releaseAt <= l.shipmentTimes[d] <= tick
  }

  lemma LaterInTime(c: Scenario, before: Ledger, after: Ledger, from: int, to: int)
    requires InTime(c, before, from) && Books(c, before, after, to) && from <= to
    requires forall d :: d in before.released ==> d in c.demands && c.demands[d].releaseAt <= from
    ensures InTime(c, after, to)
  {
    forall d | d in after.shipmentTimes ensures d in c.demands && c.demands[d].releaseAt <= after.shipmentTimes[d] <= to {
      assert Deliveries.ShippedWhen(before, after, to, d);
    }
  }

  lemma ReleasedDue(c: Scenario, s: State)
    requires WellFormed(c) && Inv(c, s) && DueReleased(c, s)
    ensures forall d :: d in s.ledger.released ==> d in c.demands && c.demands[d].releaseAt <= s.tick
  {
    InvLedger(c, s);
    hide WellFormed, Inv;
    forall d | d in s.ledger.released ensures d in c.demands && c.demands[d].releaseAt <= s.tick { assert DueFlag(c, s.ledger.released, s.tick, d); }
  }

  lemma IntervalInTime(c: Scenario, s: State, acts: Actions, k: int)
    requires WellFormed(c) && Stable(c, s) && Allowed(c, s, acts, k) && Reachable(s, k) && InTime(c, s.ledger, s.tick)
    ensures InTime(c, Interval(c, s, acts, k).ledger, s.tick + k)
  {
    hide Inv, Interval, Calm, WellFormed, Allowed, InTime, Books, DueReleased;
    IntervalBooks(c, s, acts, k);
    ReleasedDue(c, s);
    LaterInTime(c, s.ledger, Interval(c, s, acts, k).ledger, s.tick, s.tick + k);
  }

  lemma {:induction false} RunInTime(c: Scenario, s: State, run: seq<Decision>, t: State)
    requires WellFormed(c) && Stable(c, s) && Leads(c, s, run, t) && InTime(c, s.ledger, s.tick)
    ensures InTime(c, t.ledger, t.tick)
    decreases |run|
  {
    hide Inv, Calm, Apply, Enabled, DueReleased, InTime, Interval;
    if run != [] {
      ApplyStable(c, s, run[0]);
      DecisionInTime(c, s, run[0]);
      RunInTime(c, Apply(c, s, run[0]), run[1..], t);
    }
  }

  lemma DecisionInTime(c: Scenario, s: State, d: Decision)
    requires WellFormed(c) && Stable(c, s) && Enabled(c, s, d) && InTime(c, s.ledger, s.tick)
    ensures InTime(c, Apply(c, s, d).ledger, Apply(c, s, d).tick)
  {
    hide Inv, Calm, DueReleased, InTime, Interval;
    if d.Proceed? {
      AllowedIsReachable(c, s, d.acts, d.k);
      IntervalInTime(c, s, d.acts, d.k);
    } else {
      DecisionLedger(c, s, d);
    }
  }

  lemma {:induction false} SumIsCount(c: Scenario, t: State, ids: seq<DemandId>)
    requires WellFormed(c) && Inv(c, t) && DueReleased(c, t) && Chronicle(c, t) && InTime(c, t.ledger, t.tick)
    requires forall d :: d in ids ==> d in c.demands
    ensures Total(c, t.ledger, t.tick, ids) == LateSum(c, t.log, t.tick, ids)
  {
    if ids != [] {
      assert ids[0] in ids && DueFlag(c, t.ledger.released, t.tick, ids[0]) && Booked(c, t.jobs, t.ledger, t.log, ids[0]);
      hide Inv, WellFormed, Chronicle, DueReleased, LateTicks, TotalTerm, ShippedAt;
      TermIsCount(c, t, ids[0]);
      SumIsCount(c, t, ids[1..]);
    }
  }

  /** Every shipment that is not good is that of a demand with a flawed operation. */
  lemma BadIsFailed(c: Scenario, t: State)
    requires WellFormed(c) && Inv(c, t) && Chronicle(c, t)
    ensures Bad(t) == |FailedDemands(c, t.log)|
  {
    forall d ensures d in FailedDemands(c, t.log) <==> d in t.ledger.shipped && d !in t.ledger.good {
      ShippedJob(c, t, d);
      assert Booked(c, t.jobs, t.ledger, t.log, d) && Judged(c, t.jobs, t.ledger.shipped, t.log, Job(d, 1));
    }
    ShippedJob(c, t, 0);
    assert FailedDemands(c, t.log) == t.ledger.shipped - t.ledger.good;
    SplitCount(t.ledger.shipped, t.ledger.good);
  }

  lemma SplitCount(all: set<DemandId>, good: set<DemandId>)
    requires good <= all
    ensures |all - good| == |all| - |good|
  {
    assert all == (all - good) + good;
  }

  lemma InitialStable(c: Scenario)
    requires WellFormed(c) && Proper(c.outages) && Disjoint(c.outages)
    ensures Stable(c, Initial(c))
  {
    hide Inv;
  }

  lemma NothingShipped(c: Scenario, l: Ledger, tick: int)
    requires l.shipmentTimes == map[]
    ensures InTime(c, l, tick)
  {
  }

  /** The return of every run, from its log alone: every released demand costs one for each tick in which it was
      outstanding past its due time, every shipment with a flawed operation costs the penalty, and the whole
      is divided by the number of demands. */
  lemma ReturnFromLog(c: Scenario, run: seq<Decision>, t: State)
    requires WellFormed(c) && Proper(c.outages) && Disjoint(c.outages) && Leads(c, Initial(c), run, t)
    ensures |c.demands| > 0 && forall d :: d in c.demandIds ==> d in c.demands
    ensures var late, failed := LateSum(c, t.log, t.tick, c.demandIds), |FailedDemands(c, t.log)|;
            Collected(c, Initial(c), run, t) == Account(late, -((late as real + c.penalty * failed as real) / |c.demands| as real))
  {
    hide *;
    ChronicleOfRun(c, run, t);
    DemandsListed(c);
    InitialStable(c);
    InitialLedger(c);
    NothingShipped(c, Initial(c).ledger, Initial(c).tick);
    RunInTime(c, Initial(c), run, t);
    SumIsCount(c, t, c.demandIds);
    BadIsFailed(c, t);
    ReturnOfRun(c, run, t);
    LatenessIs(c, t);
    RewardIs(c, Lateness(c, t), Bad(t));
  }

  lemma LatenessIs(c: Scenario, t: State)
    requires WellFormed(c) && forall d :: d in c.demandIds ==> d in c.demands
    ensures Lateness(c, t) == Total(c, t.ledger, t.tick, c.demandIds)
  {
  }

  lemma RewardIs(c: Scenario, late: int, failed: int)
    requires WellFormed(c)
    ensures |c.demands| > 0 && Reward(c, late, failed) == -((late as real + c.penalty * failed as real) / |c.demands| as real)
  {
    DemandsListed(c);
    Quotient(late as real + c.penalty * failed as real, |c.demands| as real);
  }

  lemma Quotient(x: real, n: real)
    requires n != 0.0
    ensures -x / n == -(x / n)
  {
  }
}
