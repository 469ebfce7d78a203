/** The nominal completion time of one order: a dynamic program over the machine that performs each
    step. It is the least cost of any machine chain, and it fails exactly when there is no chain. */
module Baseline {
  import opened Collections
  import Durations

  /** Travel between sites that are not connected costs infinity. */
  datatype Cost = Finite(ticks: int) | Infinite

  function Plus(a: Cost, b: Cost): Cost {
    if a.Finite? && b.Finite? then Finite(a.ticks + b.ticks) else Infinite
  }

  predicate AtMost(a: Cost, b: Cost) {
    b.Infinite? || (a.Finite? && a.ticks <= b.ticks)
  }

  datatype Site = Input | Pre(machine: nat) | Post(machine: nat) | Output

  type Rate = r: real | r > 0.0 witness 1.0

  /** Per operation type the machines that perform it, their rates, and the walking distances. */
  datatype Plant = Plant(machines: map<nat, seq<nat>>, rate: nat -> Rate, between: (Site, Site) -> Cost)

  datatype Step = Step(kind: nat, work: nat -> real)

  function Ceil(r: real): int {
    if r.Floor as real == r then r.Floor else r.Floor + 1
  }

  function Processing(p: Plant, s: Step, m: nat): Cost {
    var ticks := Ceil(s.work(m) / p.rate(m));
    Finite(if ticks < 1 then 1 else ticks)
  }

  /** Staying on the machine is free; anything else is a walk plus loading and unloading. */
  function Travel(p: Plant, previous: Option<nat>, m: nat): Cost {
    if previous == Some(m) then Finite(0)
    else Plus(p.between(if previous.None? then Input else Post(previous.value), Pre(m)), Finite(2))
  }

  function Machines(p: Plant, kind: nat): seq<nat> {
    if kind in p.machines then p.machines[kind] else []
  }

  /** A repeated type must stay on the machine. */
  predicate May(steps: seq<Step>, n: nat, previous: Option<nat>, m: nat)
    requires n < |steps|
  {
    n > 0 && steps[n - 1].kind == steps[n].kind ==> previous == Some(m)
  }

  // -- what is minimised -----------------------------------------------------------------------

  function Last(chain: seq<nat>): Option<nat> {
    if chain == [] then None else Some(chain[|chain| - 1])
  }

  /** One machine per step, each capable of its step. */
  predicate Feasible(p: Plant, steps: seq<Step>, chain: seq<nat>)
    requires |chain| <= |steps|
  {
    chain == [] ||
    var n := |chain| - 1;
    Feasible(p, steps, chain[..n]) && chain[n] in Machines(p, steps[n].kind) && May(steps, n, Last(chain[..n]), chain[n])
  }

  function ChainCost(p: Plant, steps: seq<Step>, chain: seq<nat>): Cost
    requires |chain| <= |steps|
  {
    if chain == [] then Finite(0)
    else
      var n := |chain| - 1;
      Plus(Plus(ChainCost(p, steps, chain[..n]), Travel(p, Last(chain[..n]), chain[n])), Processing(p, steps[n], chain[n]))
  }

  /** The whole order: the chain, then the walk to the Output. */
  function OrderCost(p: Plant, steps: seq<Step>, chain: seq<nat>): Cost
    requires |chain| == |steps| > 0
  {
    Plus(ChainCost(p, steps, chain), Plus(p.between(Post(chain[|chain| - 1]), Output), Finite(2)))
  }

  // -- the program -----------------------------------------------------------------------------

  /** `c` is the least cost of a chain of `n` steps that ends at `key`. */
  ghost predicate Best(p: Plant, steps: seq<Step>, n: nat, key: Option<nat>, c: Cost)
    requires n <= |steps|
  {
    && (exists chain: seq<nat> :: EndsAt(p, steps, n, key, chain) && ChainCost(p, steps, chain) == c)
    && forall chain: seq<nat> :: EndsAt(p, steps, n, key, chain) ==> AtMost(c, ChainCost(p, steps, chain))
  }

  ghost predicate EndsAt(p: Plant, steps: seq<Step>, n: nat, key: Option<nat>, chain: seq<nat>)
    requires n <= |steps|
  {
    |chain| == n && Feasible(p, steps, chain) && Last(chain) == key
  }

  /** The table after `n` steps: exactly the machines some chain ends at, each with its least cost. */
  ghost predicate Table(p: Plant, steps: seq<Step>, n: nat, costs: map<Option<nat>, Cost>)
    requires n <= |steps|
  {
    && (forall key :: key in costs ==> Best(p, steps, n, key, costs[key]))
    && forall chain: seq<nat> {:trigger Last(chain)} :: EndsAt(p, steps, n, Last(chain), chain) ==> Last(chain) in costs
  }

  lemma ChainGrows(p: Plant, steps: seq<Step>, n: nat, chain: seq<nat>, m: nat)
    requires n < |steps| && |chain| == n
    ensures EndsAt(p, steps, n + 1, Some(m), chain + [m]) <==>
            EndsAt(p, steps, n, Last(chain), chain) && m in Machines(p, steps[n].kind) && May(steps, n, Last(chain), m)
    ensures ChainCost(p, steps, chain + [m]) ==
            Plus(Plus(ChainCost(p, steps, chain), Travel(p, Last(chain), m)), Processing(p, steps[n], m))
  {
    hide May, Machines, Travel, Processing, Plus;
    var longer := chain + [m];
    assert longer[..n] == chain && longer[n] == m;
  }

  function Value(p: Plant, steps: seq<Step>, n: nat, m: nat, key: Option<nat>, c: Cost): Cost
    requires n < |steps|
  {
    Plus(Plus(c, Travel(p, key, m)), Processing(p, steps[n], m))
  }

  /** `value` is the least over the admissible `keys`, if there is one. */
  ghost predicate LeastOver(p: Plant, steps: seq<Step>, n: nat, m: nat, costs: map<Option<nat>, Cost>, keys: set<Option<nat>>, value: Option<Cost>)
    requires n < |steps|
  {
    && (forall key :: key in keys && key in costs && May(steps, n, key, m) ==>
          value.Some? && AtMost(value.value, Value(p, steps, n, m, key, costs[key])))
    && (value.Some? ==> exists key :: key in keys && key in costs && May(steps, n, key, m) && Value(p, steps, n, m, key, costs[key]) == value.value)
  }

  method CheapestWay(p: Plant, steps: seq<Step>, n: nat, m: nat, costs: map<Option<nat>, Cost>) returns (value: Option<Cost>)
    requires n < |steps|
    ensures LeastOver(p, steps, n, m, costs, costs.Keys, value)
  {
    value := None;
    var left := costs.Keys;
    while left != {}
      invariant left <= costs.Keys && LeastOver(p, steps, n, m, costs, costs.Keys - left, value)
      decreases left
    {
      var key :| key in left;
      left := left - {key};
      if May(steps, n, key, m) {
        var v := Value(p, steps, n, m, key, costs[key]);
        if value.None? || !AtMost(value.value, v) { value := Some(v); }
      }
    }
  }

  /** One step of the program is one step of the chains. */
  lemma LeastIsBest(p: Plant, steps: seq<Step>, n: nat, m: nat, costs: map<Option<nat>, Cost>, value: Option<Cost>)
    requires n < |steps| && Table(p, steps, n, costs) && LeastOver(p, steps, n, m, costs, costs.Keys, value)
    requires m in Machines(p, steps[n].kind)
    ensures value.Some? ==> Best(p, steps, n + 1, Some(m), value.value)
    ensures value.None? ==> Unreached(p, steps, n + 1, m)
  {
    hide ChainCost, Feasible;
    if value.Some? {
      var key :| key in costs && May(steps, n, key, m) && Value(p, steps, n, m, key, costs[key]) == value.value;
      assert Best(p, steps, n, key, costs[key]);
      var chain: seq<nat> :| EndsAt(p, steps, n, key, chain) && ChainCost(p, steps, chain) == costs[key];
      ChainGrows(p, steps, n, chain, m);
      assert EndsAt(p, steps, n + 1, Some(m), chain + [m]);
    }
    if value.Some? {
      forall chain: seq<nat> | EndsAt(p, steps, n + 1, Some(m), chain) ensures AtMost(value.value, ChainCost(p, steps, chain)) {
        Shorter(p, steps, n, m, costs, chain, value);
      }
    } else {
      var longer := n + 1;
      forall chain: seq<nat> ensures !EndsAt(p, steps, longer, Some(m), chain) {
        if EndsAt(p, steps, longer, Some(m), chain) { Shorter(p, steps, n, m, costs, chain, value); }
      }
    }
  }

  lemma Shorter(p: Plant, steps: seq<Step>, n: nat, m: nat, costs: map<Option<nat>, Cost>, chain: seq<nat>, value: Option<Cost>)
    requires n < |steps| && Table(p, steps, n, costs) && LeastOver(p, steps, n, m, costs, costs.Keys, value)
    requires EndsAt(p, steps, n + 1, Some(m), chain)
    ensures value.Some? && AtMost(value.value, ChainCost(p, steps, chain))
  {
    hide ChainCost, Feasible;
    var init := chain[..n];
    assert chain == init + [m];
    ChainGrows(p, steps, n, init, m);
    var key := Last(init);
    assert EndsAt(p, steps, n, key, init) && key in costs && Best(p, steps, n, key, costs[key]);
    assert AtMost(costs[key], ChainCost(p, steps, init));
    assert AtMost(value.value, Value(p, steps, n, m, key, costs[key]));
  }

  /** The keys of `next` so far: every chain that ends at one of the machines is counted. */
  ghost predicate Reached(p: Plant, steps: seq<Step>, n: nat, next: map<Option<nat>, Cost>, machines: seq<nat>)
    requires n < |steps|
  {
    && (forall key :: key in next ==> Best(p, steps, n + 1, key, next[key]))
    && forall m :: m in machines && Some(m) !in next ==> Unreached(p, steps, n + 1, m)
  }

  ghost predicate Unreached(p: Plant, steps: seq<Step>, n: nat, m: nat)
    requires n <= |steps|
  {
    forall chain: seq<nat> :: !EndsAt(p, steps, n, Some(m), chain)
  }

  lemma ReachedAll(p: Plant, steps: seq<Step>, n: nat, next: map<Option<nat>, Cost>)
    requires n < |steps| && Reached(p, steps, n, next, Machines(p, steps[n].kind))
    ensures Table(p, steps, n + 1, next)
  {
    hide Best, ChainCost, May;
    forall chain: seq<nat> | EndsAt(p, steps, n + 1, Last(chain), chain) ensures Last(chain) in next {
      assert chain[n] in Machines(p, steps[n].kind) && !Unreached(p, steps, n + 1, chain[n]);
    }
  }

  /** The next table, machine by machine. */
  method NextCosts(p: Plant, steps: seq<Step>, n: nat, costs: map<Option<nat>, Cost>) returns (next: map<Option<nat>, Cost>)
    requires n < |steps| && Table(p, steps, n, costs)
    ensures Table(p, steps, n + 1, next)
  {
    hide Table, Best, LeastOver, EndsAt;
    next := map[];
    var machines := Machines(p, steps[n].kind);
    for i := 0 to |machines|
      invariant Reached(p, steps, n, next, machines[..i])
    {
      var m := machines[i];
      var value := CheapestWay(p, steps, n, m, costs);
      LeastIsBest(p, steps, n, m, costs, value);
      if value.Some? { next := next[Some(m) := value.value]; }
      assert machines[..i + 1] == machines[..i] + [m];
    }
    assert machines[..|machines|] == machines;
    ReachedAll(p, steps, n, next);
  }

  ghost predicate Full(p: Plant, steps: seq<Step>, chain: seq<nat>) {
    |chain| == |steps| && Feasible(p, steps, chain)
  }

  /** `c` is the least cost of the whole order. */
  ghost predicate Optimal(p: Plant, steps: seq<Step>, c: Cost)
    requires |steps| > 0
  {
    && (exists chain: seq<nat> :: Full(p, steps, chain) && OrderCost(p, steps, chain) == c)
    && forall chain: seq<nat> :: Full(p, steps, chain) ==> AtMost(c, OrderCost(p, steps, chain))
  }

  lemma StartTable(p: Plant, steps: seq<Step>)
    ensures Table(p, steps, 0, map[None := Finite(0)])
  {
    var none: seq<nat> := [];
    assert EndsAt(p, steps, 0, None, none) && ChainCost(p, steps, none) == Finite(0);
    forall chain: seq<nat> | EndsAt(p, steps, 0, None, chain) ensures AtMost(Finite(0), ChainCost(p, steps, chain)) { assert chain == none; }
  }

  lemma {:induction false} FeasiblePrefix(p: Plant, steps: seq<Step>, chain: seq<nat>, n: nat)
    requires n <= |chain| <= |steps| && Feasible(p, steps, chain)
    ensures Feasible(p, steps, chain[..n])
  {
    if n < |chain| {
      var init := chain[..|chain| - 1];
      FeasiblePrefix(p, steps, init, n);
      assert init[..n] == chain[..n];
    } else {
      assert chain[..n] == chain;
    }
  }

  /** A full chain has a prefix in every table. */
  lemma PrefixListed(p: Plant, steps: seq<Step>, n: nat, costs: map<Option<nat>, Cost>, chain: seq<nat>)
    requires n <= |steps| && Table(p, steps, n, costs) && Full(p, steps, chain)
    ensures Last(chain[..n]) in costs
  {
    hide ChainCost;
    FeasiblePrefix(p, steps, chain, n);
    assert EndsAt(p, steps, n, Last(chain[..n]), chain[..n]);
  }

  lemma NoChain(p: Plant, steps: seq<Step>, n: nat)
    requires n <= |steps| && Table(p, steps, n, map[])
    ensures forall chain: seq<nat> :: !Full(p, steps, chain)
  {
    forall chain: seq<nat> ensures !Full(p, steps, chain) {
      if Full(p, steps, chain) { PrefixListed(p, steps, n, map[], chain); }
    }
  }

  /** The price of delivering from the machine at `key`. */
  function Exit(p: Plant, key: Option<nat>, c: Cost): Cost
  {
    if key.None? then c else Plus(c, Plus(p.between(Post(key.value), Output), Finite(2)))
  }

  /** The last comparison: the least price over the whole table. */
  ghost predicate Cheapest(p: Plant, costs: map<Option<nat>, Cost>, keys: set<Option<nat>>, result: Option<Cost>) {
    && (forall key :: key in keys && key in costs ==> result.Some? && AtMost(result.value, Exit(p, key, costs[key])))
    && (result.Some? ==> exists key :: key in keys && key in costs && Exit(p, key, costs[key]) == result.value)
  }

  method CheapestExit(p: Plant, costs: map<Option<nat>, Cost>) returns (result: Option<Cost>)
    ensures Cheapest(p, costs, costs.Keys, result)
  {
    result := None;
    var left := costs.Keys;
    while left != {}
      invariant left <= costs.Keys && Cheapest(p, costs, costs.Keys - left, result)
      decreases left
    {
      var key :| key in left;
      left := left - {key};
      var v := Exit(p, key, costs[key]);
      if result.None? || !AtMost(result.value, v) { result := Some(v); }
    }
  }

  // -- an itinerary and its bill -----------------------------------------------------------------

  /** One machine per step, which performs its type; a repeated type stays on its machine. */
  ghost predicate Itinerary(p: Plant, steps: seq<Step>, chain: seq<nat>) {
    && |chain| == |steps|
    && (forall i :: 0 <= i < |chain| ==> steps[i].kind in p.machines && chain[i] in p.machines[steps[i].kind])
    && forall i, k {:trigger chain[i], chain[k]} :: 0 <= i < |chain| && k == i + 1 < |chain| && steps[k].kind == steps[i].kind ==> chain[k] == chain[i]
  }

  /** The walks of the order: to its first machine, and from machine to machine where they differ. */
  function Walks(chain: seq<nat>): seq<(Site, Site)> {
    if chain == [] then []
    else
      var n := |chain| - 1;
      Walks(chain[..n]) + if n == 0 then [(Input, Pre(chain[0]))]
                          else if chain[n] == chain[n - 1] then [] else [(Post(chain[n - 1]), Pre(chain[n]))]
  }

  /** Every walk costs its distance and two ticks of handling. */
  function Trips(p: Plant, walks: seq<(Site, Site)>): Cost {
    if walks == [] then Finite(0)
    else
      var n := |walks| - 1;
      Plus(Trips(p, walks[..n]), Plus(p.between(walks[n].0, walks[n].1), Finite(2)))
  }

  function Sum(ticks: seq<int>): int {
    if ticks == [] then 0 else Sum(ticks[..|ticks| - 1]) + ticks[|ticks| - 1]
  }

  ghost predicate Timed(p: Plant, steps: seq<Step>, chain: seq<nat>, ticks: seq<int>) {
    |ticks| == |chain| <= |steps| && forall i :: 0 <= i < |chain| ==> Durations.LeastTicks(ticks[i], steps[i].work(chain[i]), p.rate(chain[i]))
  }

  /** What the order costs on the chain: all processing times and all walks, the last one to the Output. */
  ghost predicate Billed(p: Plant, steps: seq<Step>, chain: seq<nat>, c: Cost) {
    |chain| > 0 &&
    exists ticks: seq<int> :: Timed(p, steps, chain, ticks)
                              && c == Plus(Finite(Sum(ticks)), Trips(p, Walks(chain) + [(Post(chain[|chain| - 1]), Output)]))
  }

  lemma ProcessingIsLeast(work: real, rate: Rate)
    ensures var ticks := Ceil(work / rate); Durations.LeastTicks(if ticks < 1 then 1 else ticks, work, rate)
  {
    var x := work / rate;
    var n := Ceil(x);
    assert x * rate == work;
    assert n as real >= x > n as real - 1.0;
    Durations.Compare(x, n as real, rate);
    Durations.Compare(n as real - 1.0, x, rate);
    if n < 1 { Durations.Compare(n as real, 1.0, rate); }
    if n > 1 { assert (n - 1) as real == n as real - 1.0; }
  }

  lemma LeastIsUnique(n: int, k: int, work: real, rate: Rate)
    requires Durations.LeastTicks(n, work, rate) && Durations.LeastTicks(k, work, rate)
    ensures n == k
  {
    LeastIsLess(n, k, work, rate);
    LeastIsLess(k, n, work, rate);
  }

  lemma LeastIsLess(n: int, k: int, work: real, rate: Rate)
    requires Durations.LeastTicks(n, work, rate) && Durations.LeastTicks(k, work, rate)
    ensures k <= n
  {
    if k > 1 {
      assert (k - 1) as real * rate < work <= n as real * rate;
      Durations.Compare((k - 1) as real, n as real, rate);
    }
  }

  lemma {:induction false} FeasibleMeans(p: Plant, steps: seq<Step>, chain: seq<nat>)
    requires |chain| <= |steps|
    ensures Feasible(p, steps, chain) <==> Itinerary(p, steps[..|chain|], chain)
  {
    if chain != [] {
      var n := |chain| - 1;
      FeasibleMeans(p, steps, chain[..n]);
      assert steps[..n + 1][..n] == steps[..n];
      ItineraryGrows(p, steps[..n + 1], chain, n);
      hide Itinerary;
    }
  }

  lemma ItineraryGrows(p: Plant, steps: seq<Step>, chain: seq<nat>, n: nat)
    requires |chain| == |steps| == n + 1
    ensures Itinerary(p, steps, chain) <==>
            && Itinerary(p, steps[..n], chain[..n])
            && steps[n].kind in p.machines && chain[n] in p.machines[steps[n].kind]
            && (n > 0 && steps[n].kind == steps[n - 1].kind ==> chain[n] == chain[n - 1])
  {
    var init, less := chain[..n], steps[..n];
    assert forall i :: 0 <= i < n ==> init[i] == chain[i] && less[i] == steps[i];
    if Itinerary(p, steps, chain) && n > 0 { assert steps[n].kind == steps[n - 1].kind ==> chain[n] == chain[n - 1]; }
  }

  lemma Regroup(a: int, b: int, x: Cost, y: Cost)
    ensures Plus(Plus(Plus(Finite(a), x), y), Finite(b)) == Plus(Finite(a + b), Plus(x, y))
    ensures Plus(x, Finite(0)) == x && Plus(Plus(Finite(a), x), y) == Plus(Finite(a), Plus(x, y))
  {
  }

  lemma NothingBilled(p: Plant)
    ensures Plus(Finite(Sum([])), Trips(p, Walks([]))) == Finite(0)
  {
  }

  lemma TimedOn(p: Plant, steps: seq<Step>, chain: seq<nat>, ticks: seq<int>)
    requires Timed(p, steps, chain, ticks) && chain != []
    ensures var n := |chain| - 1; Timed(p, steps, chain[..n], ticks[..n]) && Processing(p, steps[n], chain[n]) == Finite(ticks[n])
  {
    var n := |chain| - 1;
    var work, rate := steps[n].work(chain[n]), p.rate(chain[n]);
    hide Durations.LeastTicks;
    ProcessingIsLeast(work, rate);
    var due := Ceil(work / rate);
    LeastIsUnique(ticks[n], if due < 1 then 1 else due, work, rate);
  }

  /** The recursive cost of a chain is its bill so far. */
  lemma {:induction false} CostIsBill(p: Plant, steps: seq<Step>, chain: seq<nat>, ticks: seq<int>)
    requires Timed(p, steps, chain, ticks)
    ensures ChainCost(p, steps, chain) == Plus(Finite(Sum(ticks)), Trips(p, Walks(chain)))
  {
    hide Durations.LeastTicks, Processing, Travel, Walks, Trips, Plus;
    assert |ticks| == |chain| <= |steps|;
    hide Timed;
    if chain != [] {
      var n := |chain| - 1;
      TimedOn(p, steps, chain, ticks);
      WalkOn(p, chain);
      CostIsBill(p, steps, chain[..n], ticks[..n]);
      Regroup(Sum(ticks[..n]), ticks[n], Trips(p, Walks(chain[..n])), Travel(p, Last(chain[..n]), chain[n]));
    } else {
      NothingBilled(p);
    }
  }

  /** One more walk, or none. */
  lemma WalkOn(p: Plant, chain: seq<nat>)
    requires chain != []
    ensures var n := |chain| - 1; Trips(p, Walks(chain)) == Plus(Trips(p, Walks(chain[..n])), Travel(p, Last(chain[..n]), chain[n]))
  {
    var n := |chain| - 1;
    var before := Walks(chain[..n]);
    if n > 0 && chain[n] == chain[n - 1] {
      assert chain[..n][n - 1] == chain[n - 1] && Last(chain[..n]) == Some(chain[n - 1]);
      assert Walks(chain) == before + [] == before;
      Regroup(0, 0, Trips(p, before), Finite(0));
    } else {
      var walk := (if n == 0 then Input else Post(chain[n - 1]), Pre(chain[n]));
      assert Walks(chain) == before + [walk];
      TripOn(p, before, walk);
    }
  }

  lemma TripOn(p: Plant, walks: seq<(Site, Site)>, walk: (Site, Site))
    ensures Trips(p, walks + [walk]) == Plus(Trips(p, walks), Plus(p.between(walk.0, walk.1), Finite(2)))
  {
    assert (walks + [walk])[..|walks|] == walks;
  }

  function TicksOf(p: Plant, steps: seq<Step>, chain: seq<nat>): (ticks: seq<int>)
    requires |chain| <= |steps|
    ensures Timed(p, steps, chain, ticks)
  {
    var ticks := seq(|chain|, i requires 0 <= i < |chain| => var n := Ceil(steps[i].work(chain[i]) / p.rate(chain[i])); if n < 1 then 1 else n);
    assert Timed(p, steps, chain, ticks) by {
      forall i | 0 <= i < |chain| ensures Durations.LeastTicks(ticks[i], steps[i].work(chain[i]), p.rate(chain[i])) {
        ProcessingIsLeast(steps[i].work(chain[i]), p.rate(chain[i]));
      }
    }
    ticks
  }

  /** An order's cost on a chain is its bill and nothing else is. */
  lemma OrderIsBilled(p: Plant, steps: seq<Step>, chain: seq<nat>, c: Cost)
    requires |chain| == |steps| > 0
    ensures Billed(p, steps, chain, c) <==> c == OrderCost(p, steps, chain)
  {
    var exit := (Post(chain[|chain| - 1]), Output);
    TripOn(p, Walks(chain), exit);
    forall ticks: seq<int> | Timed(p, steps, chain, ticks)
      ensures OrderCost(p, steps, chain) == Plus(Finite(Sum(ticks)), Trips(p, Walks(chain) + [exit]))
    {
      CostIsBill(p, steps, chain, ticks);
      Regroup(Sum(ticks), 0, Trips(p, Walks(chain)), Plus(p.between(exit.0, exit.1), Finite(2)));
    }
    var ticks := TicksOf(p, steps, chain);
    assert Timed(p, steps, chain, ticks);
  }

  lemma FullIsItinerary(p: Plant, steps: seq<Step>, chain: seq<nat>)
    ensures Full(p, steps, chain) <==> Itinerary(p, steps, chain)
  {
    assert steps[..|steps|] == steps;
    if |chain| == |steps| { FeasibleMeans(p, steps, chain); }
  }

  /** The cheapest bill of any itinerary. */
  ghost predicate CheapestBill(p: Plant, steps: seq<Step>, c: Cost) {
    && (exists chain: seq<nat> :: Itinerary(p, steps, chain) && Billed(p, steps, chain, c))
    && forall chain: seq<nat>, other: Cost :: Itinerary(p, steps, chain) && Billed(p, steps, chain, other) ==> AtMost(c, other)
  }

  lemma OptimalIsCheapest(p: Plant, steps: seq<Step>, c: Cost)
    requires |steps| > 0 && Optimal(p, steps, c)
    ensures CheapestBill(p, steps, c)
  {
    hide Feasible, OrderCost, Billed;
    var best: seq<nat> :| Full(p, steps, best) && OrderCost(p, steps, best) == c;
    FullIsItinerary(p, steps, best);
    OrderIsBilled(p, steps, best, c);
    forall chain: seq<nat>, other: Cost | Itinerary(p, steps, chain) && Billed(p, steps, chain, other) ensures AtMost(c, other) {
      FullIsItinerary(p, steps, chain);
      OrderIsBilled(p, steps, chain, other);
    }
  }

  /** `nominal_baseline`: the cheapest bill of any itinerary; it fails exactly when there is none. */
  method NominalBaseline(p: Plant, steps: seq<Step>) returns (result: Option<Cost>)
    requires |steps| > 0
    ensures result.Some? ==> Optimal(p, steps, result.value) && CheapestBill(p, steps, result.value)
    ensures result.None? <==> forall chain: seq<nat> :: !Itinerary(p, steps, chain)
  {
    hide Table, Optimal, Full, Cheapest, CheapestBill, Itinerary;
    forall chain: seq<nat> ensures Full(p, steps, chain) <==> Itinerary(p, steps, chain) { FullIsItinerary(p, steps, chain); }
    var costs: map<Option<nat>, Cost> := map[None := Finite(0)];
    StartTable(p, steps);
    for n := 0 to |steps|
      invariant Table(p, steps, n, costs)
    {
      costs := NextCosts(p, steps, n, costs);
      if costs == map[] {
        NoChain(p, steps, n + 1);
        return None;
      }
    }
    result := CheapestExit(p, costs);
    TableIsOptimal(p, steps, costs, result);
    if result.Some? { OptimalIsCheapest(p, steps, result.value); }
  }

  lemma TableIsOptimal(p: Plant, steps: seq<Step>, costs: map<Option<nat>, Cost>, result: Option<Cost>)
    requires |steps| > 0 && Table(p, steps, |steps|, costs) && Cheapest(p, costs, costs.Keys, result)
    ensures result.Some? ==> Optimal(p, steps, result.value)
    ensures result.None? <==> forall chain: seq<nat> :: !Full(p, steps, chain)
  {
    hide Feasible, ChainCost, Plus;
    forall chain: seq<nat> | Full(p, steps, chain)
      ensures result.Some? && AtMost(result.value, OrderCost(p, steps, chain))
    {
      FullCost(p, steps, costs, chain);
    }
    if result.Some? {
      var key :| key in costs && Exit(p, key, costs[key]) == result.value;
      assert Best(p, steps, |steps|, key, costs[key]);
      var chain: seq<nat> :| EndsAt(p, steps, |steps|, key, chain) && ChainCost(p, steps, chain) == costs[key];
      assert Full(p, steps, chain) && OrderCost(p, steps, chain) == result.value;
    }
  }

  lemma FullCost(p: Plant, steps: seq<Step>, costs: map<Option<nat>, Cost>, chain: seq<nat>)
    requires |steps| > 0 && Table(p, steps, |steps|, costs) && Full(p, steps, chain)
    ensures Last(chain) in costs && AtMost(Exit(p, Last(chain), costs[Last(chain)]), OrderCost(p, steps, chain))
  {
    hide Feasible, ChainCost;
    assert EndsAt(p, steps, |steps|, Last(chain), chain) && Best(p, steps, |steps|, Last(chain), costs[Last(chain)]);
    assert AtMost(costs[Last(chain)], ChainCost(p, steps, chain));
  }
}
