/** How long an operation takes, in inequalities: the least number of whole ticks that covers the work, or
    the nearest one, under both rounding rules. */
module Durations {
  import opened Collections
  import opened Factory
  import opened Custody
  import opened Safety
  import opened Operations

  /** The least positive number of ticks in which a machine of this rate covers the amount. */
  ghost predicate LeastTicks(n: int, amount: real, rate: real) {
    n >= 1 && n as real * rate >= amount && (n > 1 ==> (n - 1) as real * rate < amount)
  }

  /** The nearest positive number of ticks, halves upwards, in which a machine of this rate covers the amount. */
  ghost predicate NearestTicks(n: int, amount: real, rate: real) {
    && n >= 1
    && 2.0 * amount < (2 * n + 1) as real * rate
    && (n > 1 ==> (2 * n - 1) as real * rate <= 2.0 * amount)
  }

  /** The work the demand declares, which an entry for the machine overrides. */
  function Declared(op: Step, m: MachineId): real {
    if m in op.overrides then op.overrides[m] else op.ticks
  }

  /** The multiplier goes from the lower bound to the upper one as the draw goes from 0 to 1. */
  function Share(low: real, high: real, draw: real): real {
    (1.0 - draw) * low + draw * high
  }

  function Scaled(amount: real, scale: real): real {
    amount * scale
  }

  /** The nominal duration is that of the declared work, the actual one that of the sample if there is one and
      otherwise that of the drawn share of the work, which is first rounded to ticks unless rounding is upwards. */
  ghost predicate Times(upwards: bool, work: real, share: real, sample: Option<nat>, scale: real, rate: real, actual: int, nominal: int) {
    if upwards then
      && LeastTicks(nominal, Scaled(work, scale), rate)
      && LeastTicks(actual, Scaled(if sample.Some? then sample.value as real else Scaled(work, share), scale), rate)
    else
      && NearestTicks(nominal, Scaled(work, scale), rate)
      && exists base: int {:trigger Based(Scaled(work, share), sample, base)} ::
           Based(Scaled(work, share), sample, base) && NearestTicks(actual, Scaled(base as real, scale), rate)
  }

  ghost predicate Based(drawn: real, sample: Option<nat>, base: int) {
    if sample.Some? then base == sample.value else NearestTicks(base, drawn, 1.0)
  }

  /** Durations of the job's operation on a machine in a mode. */
  ghost predicate Takes(c: Scenario, j: JobId, step: nat, m: MachineId, mode: ModeId, actual: int, nominal: int) {
    && j.demand in c.demands && step < |c.demands[j.demand].steps| && m in c.machines && mode in c.machines[m].modes
    && Times(c.ceilRounding, Declared(c.demands[j.demand].steps[step], m), Share(c.low, c.high, c.processingDraw(j, step)),
             if (j, step, m) in c.samples then Some(c.samples[(j, step, m)]) else None,
             c.machines[m].modes[mode].timeScale, c.machines[m].rate, actual, nominal)
  }

  lemma CeilIsLeast(amount: real, rate: real)
    requires rate > 0.0
    ensures LeastTicks(Max(1, Ceil(amount / rate)), amount, rate)
  {
    var x := amount / rate;
    var n := Ceil(x);
    assert x * rate == amount;
    assert n as real >= x > n as real - 1.0;
    Compare(x, n as real, rate);
    Compare(n as real - 1.0, x, rate);
    var k := Max(1, n);
    if n < 1 { Compare(n as real, 1.0, rate); }
    assert k as real * rate >= amount;
    if k > 1 { assert (k - 1) as real == n as real - 1.0; }
  }

  lemma Compare(a: real, b: real, rate: real)
    requires rate > 0.0
    ensures a <= b <==> a * rate <= b * rate
    ensures a < b <==> a * rate < b * rate
  {
  }

  lemma RoundedIsNearest(amount: real, rate: real)
    requires rate > 0.0
    ensures NearestTicks(Rounded(amount / rate), amount, rate)
  {
    var x := amount / rate;
    var n, k := (x + 0.5).Floor, Rounded(x);
    assert x * rate == amount;
    assert n as real <= x + 0.5 < n as real + 1.0;
    assert 2.0 * x < (2 * k + 1) as real && (k > 1 ==> (2 * k - 1) as real <= 2.0 * x);
    Compare(2.0 * x, (2 * k + 1) as real, rate);
    Compare((2 * k - 1) as real, 2.0 * x, rate);
    assert (2.0 * x) * rate == 2.0 * (x * rate);
  }

  lemma UpwardsTicks(amount: real, scale: real, rate: real)
    requires rate > 0.0
    ensures LeastTicks(Max(1, Ceil(Exact(amount, scale, rate))), Scaled(amount, scale), rate)
  {
    Regroup(amount, scale, rate);
    CeilIsLeast(amount * scale, rate);
    hide LeastTicks, Ceil;
  }

  lemma HalvesTicks(amount: real, scale: real, rate: real)
    requires rate > 0.0
    ensures NearestTicks(Rounded(Exact(amount, scale, rate)), Scaled(amount, scale), rate)
  {
    Regroup(amount, scale, rate);
    RoundedIsNearest(amount * scale, rate);
    hide NearestTicks, Rounded;
  }

  lemma DrawnTicks(drawn: real)
    ensures NearestTicks(Rounded(drawn), drawn, 1.0)
  {
    RoundedIsNearest(drawn, 1.0);
  }

  lemma PortionIsScaled(work: real, factor: real)
    ensures Portion(work, factor) == Scaled(work, factor)
  {
  }

  lemma SpansTake(upwards: bool, work: real, factor: real, sample: Option<nat>, scale: real, rate: real)
    requires rate > 0.0
    ensures var r := Spans(upwards, work, factor, sample, scale, rate); Times(upwards, work, factor, sample, scale, rate, r.0, r.1)
  {
    PortionIsScaled(work, factor);
    hide LeastTicks, NearestTicks, Rounded, Ceil, Scaled, Portion, Exact;
    var drawn := Scaled(work, factor);
    if upwards {
      UpwardsTicks(work, scale, rate);
      if sample.Some? { UpwardsTicks(sample.value as real, scale, rate); } else { UpwardsTicks(drawn, scale, rate); }
    } else {
      var base := if sample.Some? then sample.value else Rounded(drawn);
      HalvesTicks(work, scale, rate);
      HalvesTicks(base as real, scale, rate);
      DrawnTicks(drawn);
      assert Based(drawn, sample, base);
    }
  }

  lemma MultiplierIsShare(low: real, high: real, draw: real)
    ensures Multiplier(low, high, draw) == Share(low, high, draw)
  {
  }

  /** The specified durations take so long. */
  lemma DurationTakes(c: Scenario, j: JobId, step: nat, m: MachineId, mode: ModeId)
    requires WellFormed(c) && Capable(c, j, step, m) && mode in c.machines[m].modes
    ensures var r := Duration(c, j, step, m, mode); Takes(c, j, step, m, mode, r.0, r.1)
  {
    assert GoodMachine(c, m);
    hide WellFormed, Spans, Times, Multiplier, Share;
    MultiplierIsShare(c.low, c.high, c.processingDraw(j, step));
    SpansTake(c.ceilRounding, Declared(c.demands[j.demand].steps[step], m), Share(c.low, c.high, c.processingDraw(j, step)),
              if (j, step, m) in c.samples then Some(c.samples[(j, step, m)]) else None, c.machines[m].modes[mode].timeScale, c.machines[m].rate);
  }

  lemma Regroup(a: real, b: real, rate: real)
    requires rate > 0.0
    ensures a * (b / rate) == (a * b) / rate
  {
  }

  // -- faster machines -------------------------------------------------------------------------

  lemma Product(a: real, b: real, slow: real, fast: real)
    requires 0.0 <= a <= b && 0.0 < slow <= fast
    ensures a * slow <= b * fast
  {
    assert a * slow <= a * fast <= b * fast;
  }

  lemma LeastShrinks(n: int, k: int, amount: real, slow: real, fast: real)
    requires 0.0 < slow <= fast && LeastTicks(n, amount, slow) && LeastTicks(k, amount, fast)
    ensures k <= n
  {
    if k > n { Product(n as real, (k - 1) as real, slow, fast); }
  }

  lemma NearestShrinks(n: int, k: int, amount: real, slow: real, fast: real)
    requires 0.0 < slow <= fast && NearestTicks(n, amount, slow) && NearestTicks(k, amount, fast)
    ensures k <= n
  {
    if k > n { Product((2 * n + 1) as real, (2 * k - 1) as real, slow, fast); }
  }

  lemma TimesShrink(upwards: bool, work: real, share: real, sample: Option<nat>, scale: real, slow: real, fast: real, n: (int, int), k: (int, int))
    requires 0.0 < slow <= fast
    requires Times(upwards, work, share, sample, scale, slow, n.0, n.1) && Times(upwards, work, share, sample, scale, fast, k.0, k.1)
    ensures k.0 <= n.0 && k.1 <= n.1
  {
    hide LeastTicks, NearestTicks, Scaled;
    var drawn := Scaled(work, share);
    if upwards {
      LeastShrinks(n.1, k.1, Scaled(work, scale), slow, fast);
      LeastShrinks(n.0, k.0, Scaled(if sample.Some? then sample.value as real else drawn, scale), slow, fast);
    } else {
      NearestShrinks(n.1, k.1, Scaled(work, scale), slow, fast);
      var a: int :| Based(drawn, sample, a) && NearestTicks(n.0, Scaled(a as real, scale), slow);
      var b: int :| Based(drawn, sample, b) && NearestTicks(k.0, Scaled(b as real, scale), fast);
      if sample.None? {
        NearestShrinks(a, b, drawn, 1.0, 1.0);
        NearestShrinks(b, a, drawn, 1.0, 1.0);
      }
      NearestShrinks(n.0, k.0, Scaled(a as real, scale), slow, fast);
    }
  }

  /** A higher rate of the machine never lengthens a duration. */
  lemma FasterIsNoLonger(c: Scenario, fast: Scenario, j: JobId, step: nat, m: MachineId, mode: ModeId, rate: real, n: (int, int), k: (int, int))
    requires m in c.machines && 0.0 < c.machines[m].rate <= rate && fast == c.(machines := c.machines[m := c.machines[m].(rate := rate)])
    requires Takes(c, j, step, m, mode, n.0, n.1) && Takes(fast, j, step, m, mode, k.0, k.1)
    ensures k.0 <= n.0 && k.1 <= n.1
  {
    assert fast.machines[m].rate == rate;
    hide Times, Share, Declared;
    TimesShrink(c.ceilRounding, Declared(c.demands[j.demand].steps[step], m), Share(c.low, c.high, c.processingDraw(j, step)),
                if (j, step, m) in c.samples then Some(c.samples[(j, step, m)]) else None,
                c.machines[m].modes[mode].timeScale, c.machines[m].rate, rate, n, k);
  }

  /** Durations are determined: the same operation takes as long in every description. */
  lemma TakesIsUnique(c: Scenario, j: JobId, step: nat, m: MachineId, mode: ModeId, n: (int, int), k: (int, int))
    requires m in c.machines && 0.0 < c.machines[m].rate
    requires Takes(c, j, step, m, mode, n.0, n.1) && Takes(c, j, step, m, mode, k.0, k.1)
    ensures k == n
  {
    var same := c.(machines := c.machines[m := c.machines[m].(rate := c.machines[m].rate)]);
    assert same.machines == c.machines;
    assert same == c;
    FasterIsNoLonger(c, c, j, step, m, mode, c.machines[m].rate, n, k);
    FasterIsNoLonger(c, c, j, step, m, mode, c.machines[m].rate, k, n);
  }

  // -- starting an operation -------------------------------------------------------------------

  /** Taking a job from where its row says leaves it nowhere, and every other job where it was. */
  lemma JobLeaves(c: Scenario, s: State, j: JobId)
    requires WellFormed(c) && Inv(c, s) && j in s.jobs && (s.jobs[j].loc.Stored? ==> s.jobs[j].loc.place in s.storage)
    ensures var after := if s.jobs[j].loc.Stored? then s.storage[s.jobs[j].loc.place := Without(s.storage[s.jobs[j].loc.place], j)] else s.storage;
            after.Keys == s.storage.Keys && forall p :: p in after ==> multiset(after[p]) == multiset(s.storage[p]) - multiset{j}
  {
    assert Located(s.jobs, s.queue, s.storage, s.machines, s.agvs, j);
    forall p | p in s.storage && s.jobs[j].loc != Stored(p) ensures j !in s.storage[p] { assert j in s.storage[p] ==> Names(s.jobs, j, Stored(p)); }
  }

  /** The job has left its slot for the machine, which runs it in the mode from now on for as long as its
      work takes there; nothing else changed. */
  ghost predicate Begun(c: Scenario, s: State, t: State, m: MachineId, j: JobId, mode: ModeId) {
    && j in s.jobs && m in s.machines && m in t.machines && t.machines == s.machines[m := t.machines[m]]
    && Takes(c, j, s.jobs[j].step, m, mode, t.machines[m].remaining, t.machines[m].nominal)
    && t.machines[m].job == Some(j) && t.machines[m].status == Processing && t.machines[m].mode == Some(mode)
    && t.machines[m].elapsed == 0 && t.machines[m].down == s.machines[m].down
    && t.jobs == s.jobs[j := s.jobs[j].(loc := AtMachine(m), since := s.tick)]
    && t.storage.Keys == s.storage.Keys && (forall p :: p in t.storage ==> multiset(t.storage[p]) == multiset(s.storage[p]) - multiset{j})
    && t.log == s.log + [ProcessingStarted(s.tick, m, j, mode, t.machines[m].nominal, t.machines[m].remaining)]
    && t == s.(jobs := t.jobs, machines := t.machines, storage := t.storage, log := t.log)
  }

  lemma StartBegins(c: Scenario, s: State, m: MachineId, j: JobId, mode: ModeId)
    requires WellFormed(c) && Inv(c, s) && Shaped(c, s) && Startable(c, s, m, j, mode)
    requires m in s.machines && j in s.jobs && (s.machines[m].job.Some? ==> s.jobs[j].loc == AtMachine(m))
    requires Capable(c, j, s.jobs[j].step, m) && mode in c.machines[m].modes && (s.jobs[j].loc.Stored? ==> s.jobs[j].loc.place in s.storage)
    ensures Begun(c, s, Start(c, s, m, j, mode), m, j, mode)
  {
    hide WellFormed, Inv, Takes, Duration, Shaped;
    DurationTakes(c, j, s.jobs[j].step, m, mode);
    JobLeaves(c, s, j);
    StartRows(c, s, m, j, mode);
    hide Start, Startable;
  }

  /** `Start` field by field. */
  lemma StartRows(c: Scenario, s: State, m: MachineId, j: JobId, mode: ModeId)
    requires WellFormed(c) && Shaped(c, s) && Startable(c, s, m, j, mode) && (s.machines[m].job.Some? ==> s.jobs[j].loc == AtMachine(m))
    ensures Capable(c, j, s.jobs[j].step, m) && mode in c.machines[m].modes && (s.jobs[j].loc.Stored? ==> s.jobs[j].loc.place in s.storage)
    ensures var t, r := Start(c, s, m, j, mode), Duration(c, j, s.jobs[j].step, m, mode);
            && t == s.(jobs := t.jobs, machines := t.machines, storage := t.storage, log := t.log)
            && t.jobs == s.jobs[j := s.jobs[j].(loc := AtMachine(m), since := s.tick)]
            && t.machines == s.machines[m := s.machines[m].(job := Some(j), status := Processing, remaining := r.0, elapsed := 0,
                                                            nominal := r.1, mode := Some(mode))]
            && t.storage == (if s.jobs[j].loc.Stored? then s.storage[s.jobs[j].loc.place := Without(s.storage[s.jobs[j].loc.place], j)] else s.storage)
            && t.log == s.log + [ProcessingStarted(s.tick, m, j, mode, r.1, r.0)]
  {
    hide Duration;
  }
}
