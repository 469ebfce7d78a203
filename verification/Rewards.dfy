/** Interval rewards telescope: however a run is partitioned, its return is that of its last state. */
module Rewards {
  import opened Collections
  import opened Availability
  import opened Factory
  import opened Safety
  import opened Settling
  import opened Deliveries
  import opened Stepping
  import opened Physics
  import opened Runs
  import opened TimeJump
  import opened StaleClocks

  // -- lateness --------------------------------------------------------------------------------

  function Late(at: int, due: int): int {
    Max(0, at - due)
  }

  /** Lateness the interval adds to a demand that was outstanding when it began. */
  function AddedTerm(c: Scenario, before: Ledger, after: Ledger, from: int, to: int, d: DemandId): int
    requires d in c.demands
  {
    if d in before.released && d !in before.shipped
    then Late(if d in after.shipmentTimes then after.shipmentTimes[d] else to, c.demands[d].dueAt) - Late(from, c.demands[d].dueAt)
    else 0
  }

  function Added(c: Scenario, before: Ledger, after: Ledger, from: int, to: int, ids: seq<DemandId>): int
    requires forall d :: d in ids ==> d in c.demands
  {
    if ids == [] then 0
    else AddedTerm(c, before, after, from, to, ids[0]) + Added(c, before, after, from, to, ids[1..])
  }

  /** Lateness of a released demand since its release. */
  function TotalTerm(c: Scenario, l: Ledger, tick: int, d: DemandId): int
    requires d in c.demands
  {
    if d in l.released
    then Late(if d in l.shipmentTimes then l.shipmentTimes[d] else tick, c.demands[d].dueAt)
         - Late(c.demands[d].releaseAt, c.demands[d].dueAt)
    else 0
  }

  function Total(c: Scenario, l: Ledger, tick: int, ids: seq<DemandId>): int
    requires forall d :: d in ids ==> d in c.demands
  {
    if ids == [] then 0 else TotalTerm(c, l, tick, ids[0]) + Total(c, l, tick, ids[1..])
  }

  /** What one interval does to the ledger: demands released in it are released at its end, unshipped. */
  ghost predicate Books(c: Scenario, before: Ledger, after: Ledger, to: int) {
    && before.shipped <= before.released <= after.released && before.shipmentTimes.Keys == before.shipped
    && Ships(before, after, to) && after.shipped <= before.released
    && forall d {:trigger ReleasedNow(c, to, d)} :: d in after.released && d !in before.released ==> ReleasedNow(c, to, d)
  }

  ghost predicate ReleasedNow(c: Scenario, to: int, d: DemandId) {
    d in c.demands && c.demands[d].releaseAt == to
  }

  lemma TermTelescopes(c: Scenario, before: Ledger, after: Ledger, from: int, to: int, d: DemandId)
    requires d in c.demands && Books(c, before, after, to)
    ensures TotalTerm(c, after, to, d) == TotalTerm(c, before, from, d) + AddedTerm(c, before, after, from, to, d)
  {
    if d in after.shipped { assert ShippedWhen(before, after, to, d); }
    if d in after.released && d !in before.released { assert ReleasedNow(c, to, d); }
  }

  lemma {:induction false} LatenessTelescopes(c: Scenario, before: Ledger, after: Ledger, from: int, to: int, ids: seq<DemandId>)
    requires (forall d :: d in ids ==> d in c.demands) && Books(c, before, after, to)
    ensures Total(c, after, to, ids) == Total(c, before, from, ids) + Added(c, before, after, from, to, ids)
  {
    if ids != [] {
      assert ids[0] in ids;
      TermTelescopes(c, before, after, from, to, ids[0]);
      LatenessTelescopes(c, before, after, from, to, ids[1..]);
    }
  }

  lemma DemandsListed(c: Scenario)
    requires WellFormed(c)
    ensures (forall d :: d in c.demandIds ==> d in c.demands) && |c.demands| > 0
  {
    assert forall d :: d in c.demandIds ==> d in SetOf(c.demandIds);
    assert c.demandIds[0] in c.demands.Keys;
    assert |c.demands| == |c.demands.Keys|;
  }

  /** `_overdue_time` added by the interval from `s` to `t`. */
  function Overdue(c: Scenario, s: State, t: State): int
    requires WellFormed(c)
  {
    DemandsListed(c);
    Added(c, s.ledger, t.ledger, s.tick, t.tick, c.demandIds)
  }

  /** Shipments of the interval that failed inspection. */
  function Failed(s: State, t: State): int {
    |t.ledger.shipped - s.ledger.shipped| - (|t.ledger.good| - |s.ledger.good|)
  }

  function Reward(c: Scenario, overdue: int, failed: int): real
    requires WellFormed(c)
  {
    DemandsListed(c);
    -(overdue as real + c.penalty * failed as real) / |c.demands| as real
  }

  // -- what a state is worth -------------------------------------------------------------------

  /** Lateness of all demands released so far. */
  function Lateness(c: Scenario, s: State): int
    requires WellFormed(c)
  {
    DemandsListed(c);
    Total(c, s.ledger, s.tick, c.demandIds)
  }

  /** Shipments so far that failed inspection. */
  function Bad(s: State): int {
    |s.ledger.shipped| - |s.ledger.good|
  }

  lemma FailedTelescopes(s: State, t: State)
    requires s.ledger.shipped <= t.ledger.shipped
    ensures Bad(t) == Bad(s) + Failed(s, t)
  {
    assert t.ledger.shipped == s.ledger.shipped + (t.ledger.shipped - s.ledger.shipped);
  }

  lemma IntervalBooks(c: Scenario, s: State, acts: Actions, k: int)
    requires WellFormed(c) && Stable(c, s) && Allowed(c, s, acts, k) && Reachable(s, k)
    ensures Books(c, s.ledger, Interval(c, s, acts, k).ledger, s.tick + k)
  {
    hide Inv, Interval, Calm;
    var t := Interval(c, s, acts, k);
    IntervalShips(c, s, acts, k);
    InvLedger(c, s);
    InvLedger(c, t);
    DueNotEarly(c, s);
    ReleasedAtEnd(c, s.ledger.released, t.ledger.released, s.tick, t.tick, k);
  }

  lemma ReleasedAtEnd(c: Scenario, before: set<DemandId>, after: set<DemandId>, from: int, to: int, k: int)
    requires before <= c.demands.Keys && after <= c.demands.Keys && to == from + k
    requires forall d {:trigger DueFlag(c, before, from, d)} :: d in c.demands ==> DueFlag(c, before, from, d)
    requires forall d {:trigger DueFlag(c, after, to, d)} :: d in c.demands ==> DueFlag(c, after, to, d)
    requires k == 1 || (k > 1 && forall d :: d in c.demands && from < c.demands[d].releaseAt ==> to <= c.demands[d].releaseAt)
    ensures before <= after && forall d :: d in after && d !in before ==> ReleasedNow(c, to, d)
  {
    forall d | d in c.demands ensures d in before ==> d in after {
      assert DueFlag(c, before, from, d) && DueFlag(c, after, to, d);
    }
    forall d | d in after && d !in before ensures ReleasedNow(c, to, d) {
      assert DueFlag(c, before, from, d) && DueFlag(c, after, to, d);
    }
  }

  // -- runs ------------------------------------------------------------------------------------

  /** Overdue time and reward collected by the intervals of a run. */
  datatype Account = Account(overdue: int, total: real)

  ghost function Collected(c: Scenario, s: State, run: seq<Decision>, t: State): Account
    requires WellFormed(c) && Stable(c, s) && Leads(c, s, run, t)
    decreases |run|
  {
    if run == [] then Account(0, 0.0)
    else
      ApplyStable(c, s, run[0]);
      var u := Apply(c, s, run[0]);
      var rest := Collected(c, u, run[1..], t);
      if run[0].Proceed?
      then Account(Overdue(c, s, u) + rest.overdue, Reward(c, Overdue(c, s, u), Failed(s, u)) + rest.total)
      else rest
  }

  lemma RewardAdds(c: Scenario, o1: int, f1: int, o2: int, f2: int)
    requires WellFormed(c)
    ensures Reward(c, o1, f1) + Reward(c, o2, f2) == Reward(c, o1 + o2, f1 + f2)
  {
    DemandsListed(c);
    var n := |c.demands| as real;
    var x, y := o1 as real + c.penalty * f1 as real, o2 as real + c.penalty * f2 as real;
    assert (o1 + o2) as real + c.penalty * (f1 + f2) as real == x + y by {
      assert c.penalty * (f1 + f2) as real == c.penalty * f1 as real + c.penalty * f2 as real;
    }
    QuotientAdds(x, y, n);
  }

  lemma QuotientAdds(x: real, y: real, n: real)
    requires n != 0.0
    ensures -x / n + -y / n == -(x + y) / n
  {
  }

  /** One decision of a run changes what the state is worth by what it pays. */
  lemma DecisionPays(c: Scenario, s: State, d: Decision, u: State)
    requires WellFormed(c) && Stable(c, s) && Enabled(c, s, d) && u == Apply(c, s, d)
    ensures if d.Proceed? then Lateness(c, u) == Lateness(c, s) + Overdue(c, s, u) && Bad(u) == Bad(s) + Failed(s, u)
            else Lateness(c, u) == Lateness(c, s) && Bad(u) == Bad(s)
  {
    hide Inv, Interval, Calm, Lateness, Overdue;
    if d.Proceed? {
      AllowedIsReachable(c, s, d.acts, d.k);
      IntervalBooks(c, s, d.acts, d.k);
      BooksPay(c, s, u);
    } else {
      DecisionLedger(c, s, d);
      SameWorth(c, s, u);
    }
  }

  lemma BooksPay(c: Scenario, s: State, u: State)
    requires WellFormed(c) && Books(c, s.ledger, u.ledger, u.tick)
    ensures Lateness(c, u) == Lateness(c, s) + Overdue(c, s, u) && Bad(u) == Bad(s) + Failed(s, u)
  {
    DemandsListed(c);
    LatenessTelescopes(c, s.ledger, u.ledger, s.tick, u.tick, c.demandIds);
    FailedTelescopes(s, u);
  }

  lemma SameWorth(c: Scenario, s: State, u: State)
    requires WellFormed(c) && u.ledger == s.ledger && u.tick == s.tick
    ensures Lateness(c, u) == Lateness(c, s) && Bad(u) == Bad(s)
  {
  }

  /** However a run is cut into intervals, its overdue time and its return are those of its end state. */
  lemma {:induction false} RunTelescopes(c: Scenario, s: State, run: seq<Decision>, t: State)
    requires WellFormed(c) && Stable(c, s) && Leads(c, s, run, t)
    ensures Collected(c, s, run, t) == Account(Lateness(c, t) - Lateness(c, s), Reward(c, Lateness(c, t) - Lateness(c, s), Bad(t) - Bad(s)))
    decreases |run|
  {
    hide Inv, Interval, Calm, Apply, Enabled, DueReleased, Lateness, Overdue, Reward, Bad, Failed;
    if run != [] {
      ApplyStable(c, s, run[0]);
      var u := Apply(c, s, run[0]);
      DecisionPays(c, s, run[0], u);
      RunTelescopes(c, u, run[1..], t);
      if run[0].Proceed? {
        RewardAdds(c, Overdue(c, s, u), Failed(s, u), Lateness(c, t) - Lateness(c, u), Bad(t) - Bad(u));
        assert Overdue(c, s, u) + (Lateness(c, t) - Lateness(c, u)) == Lateness(c, t) - Lateness(c, s);
        assert Failed(s, u) + (Bad(t) - Bad(u)) == Bad(t) - Bad(s);
      }
    } else {
      NoReward(c);
    }
  }

  lemma NoReward(c: Scenario)
    requires WellFormed(c)
    ensures Reward(c, 0, 0) == 0.0
  {
    DemandsListed(c);
  }

  lemma {:induction false} FreshTotal(c: Scenario, l: Ledger, ids: seq<DemandId>)
    requires forall d :: d in ids ==> d in c.demands
    requires l.shipmentTimes == map[] && forall d :: d in l.released && d in c.demands ==> c.demands[d].releaseAt == 0
    ensures Total(c, l, 0, ids) == 0
  {
    if ids != [] {
      assert ids[0] in ids;
      FreshTotal(c, l, ids[1..]);
    }
  }

  lemma InitialWorth(c: Scenario)
    requires WellFormed(c)
    ensures Lateness(c, Initial(c)) == 0 && Bad(Initial(c)) == 0
  {
    hide Inv, Initial, GoodDemand;
    var s := Initial(c);
    InitialLedger(c);
    InvLedger(c, s);
    DemandsListed(c);
    DueAtStart(c, s);
    FreshTotal(c, s.ledger, c.demandIds);
  }

  lemma DueAtStart(c: Scenario, s: State)
    requires WellFormed(c) && DueReleased(c, s) && s.tick == 0
    ensures forall d :: d in s.ledger.released && d in c.demands ==> c.demands[d].releaseAt == 0
  {
    forall d | d in s.ledger.released && d in c.demands ensures c.demands[d].releaseAt == 0 {
      assert DueFlag(c, s.ledger.released, s.tick, d) && GoodDemand(c, d);
    }
  }

  lemma InitialLedger(c: Scenario)
    requires WellFormed(c)
    ensures Initial(c).tick == 0 && Initial(c).ledger.shipped == {} && Initial(c).ledger.shipmentTimes == map[]
  {
    FreshIsSafe(c);
  }

  /** In every state of every run, the overdue time is the lateness of all released demands beyond
      their lateness at release, and the return is the negated, normalized sum of it and of the
      penalties of all bad shipments. */
  lemma ReturnOfRun(c: Scenario, run: seq<Decision>, t: State)
    requires WellFormed(c) && Proper(c.outages) && Disjoint(c.outages) && Leads(c, Initial(c), run, t)
    ensures Collected(c, Initial(c), run, t) == Account(Lateness(c, t), Reward(c, Lateness(c, t), Bad(t)))
  {
    hide Inv, Initial, Leads, Collected, Lateness, Reward, Bad;
    RunTelescopes(c, Initial(c), run, t);
    InitialWorth(c);
  }

  /** Two runs that end in the same state collected the same return. */
  lemma ReturnIgnoresPartition(c: Scenario, s: State, first: seq<Decision>, second: seq<Decision>, t: State)
    requires WellFormed(c) && Stable(c, s) && Leads(c, s, first, t) && Leads(c, s, second, t)
    ensures Collected(c, s, first, t) == Collected(c, s, second, t)
  {
    hide Inv, Leads, Collected;
    RunTelescopes(c, s, first, t);
    RunTelescopes(c, s, second, t);
  }

  // -- jumps -----------------------------------------------------------------------------------

  function Repeat(d: Decision, k: nat): (r: seq<Decision>)
    ensures |r| == k
  {
    if k == 0 then [] else [d] + Repeat(d, k - 1)
  }

  lemma TickEnabled(c: Scenario, s: State, acts: Actions)
    requires WellFormed(c) && Decided(c, s)
    ensures Enabled(c, s, Proceed(acts, 1)) && Reachable(s, 1)
    ensures Apply(c, s, Proceed(acts, 1)) == Interval(c, s, acts, 1)
  {
    hide Inv, Interval, Calm;
    OneTickIsReachable(c, s);
  }

  lemma OneMore(c: Scenario, s: State, d: Decision, run: seq<Decision>, t: State)
    requires WellFormed(c) && Stable(c, s) && Enabled(c, s, d) && Stable(c, Apply(c, s, d))
    requires Leads(c, Apply(c, s, d), run, t)
    ensures Leads(c, s, [d] + run, t)
  {
    hide Inv, Apply, Enabled, Calm, DueReleased;
    assert ([d] + run)[1..] == run;
  }

  lemma NoMore(c: Scenario, s: State)
    requires WellFormed(c) && Stable(c, s)
    ensures Leads(c, s, [], s)
  {
  }

  /** The single ticks of a quiet interval are a run. */
  lemma {:induction false} TicksLead(c: Scenario, s: State, acts: Actions, k: nat)
    requires WellFormed(c) && Decided(c, s) && Quiet(c, s, k) && AllWait(acts)
    ensures Leads(c, s, Repeat(Proceed(acts, 1), k), Ticks(c, s, acts, k))
    decreases k
  {
    hide Inv, Interval, Calm, Apply, Enabled, Leads, Ticks, AllFirm, DueReleased;
    var d := Proceed(acts, 1);
    TickEnabled(c, s, acts);
    ApplyStable(c, s, d);
    var t := Interval(c, s, acts, 1);
    TicksStep(c, s, acts, k);
    if k >= 2 {
      FirstTick(c, s, t, acts, k);
      TicksLead(c, t, acts, k - 1);
    } else {
      assert k - 1 == 0;
      NoTicks(c, t, acts);
      NoMore(c, t);
    }
    OneMore(c, s, d, Repeat(d, k - 1), Ticks(c, t, acts, k - 1));
  }

  lemma NoTicks(c: Scenario, s: State, acts: Actions)
    requires WellFormed(c) && Inv(c, s)
    ensures Ticks(c, s, acts, 0) == s
  {
  }

  /** The jump and the single ticks are runs to the same state that collect the same return. */
  lemma JumpPaysTheSame(c: Scenario, s: State, acts: Actions, k: nat)
    requires WellFormed(c) && Decided(c, s) && Quiet(c, s, k) && AllWait(acts) && NoneReady(s) && k >= 2
    ensures var t := Interval(c, s, acts, k);
            && Leads(c, s, [Proceed(acts, k)], t) && Leads(c, s, Repeat(Proceed(acts, 1), k), t)
            && Collected(c, s, [Proceed(acts, k)], t) == Collected(c, s, Repeat(Proceed(acts, 1), k), t)
  {
    hide Inv, Interval, Calm, Leads, Ticks, AllFirm, DueReleased, Collected;
    var d, t := Proceed(acts, k), Interval(c, s, acts, k);
    assert Enabled(c, s, d) && Apply(c, s, d) == t;
    ApplyStable(c, s, d);
    NoMore(c, t);
    OneMore(c, s, d, [], t);
    assert [d] + [] == [d];
    TicksLead(c, s, acts, k);
    JumpIsTicks(c, s, acts, k);
    ReturnIgnoresPartition(c, s, [d], Repeat(Proceed(acts, 1), k), t);
  }
}
