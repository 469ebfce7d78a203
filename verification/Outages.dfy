/** Outage calendars: the two generators that sample them and the merged form in which the domain
    keeps them. Both generators always produce the calendars on which the bisected lookup is right,
    and the merged form of a covered set of machine ticks is unique. */
module Outages {
  import opened Collections
  import opened Availability

  // -- sorting ---------------------------------------------------------------------------------

  type Order = (Outage, Outage) -> bool

  ghost predicate Total(le: Order) {
    && (forall a, b :: le(a, b) || le(b, a))
    && (forall a, b, c :: le(a, b) && le(b, c) ==> le(a, c))
  }

  ghost predicate Increasing(rows: seq<Outage>, le: Order) {
    forall i, k :: 0 <= i < k < |rows| ==> le(rows[i], rows[k])
  }

  function Place(o: Outage, rows: seq<Outage>, le: Order): (r: seq<Outage>)
    ensures multiset(r) == multiset(rows) + multiset{o}
  {
    if rows == [] || le(o, rows[0]) then [o] + rows
    else
      assert rows == [rows[0]] + rows[1..];
      [rows[0]] + Place(o, rows[1..], le)
  }

  /** `sorted(os, key=...)` for a key that orders the rows by `le`. */
  function Sort(os: seq<Outage>, le: Order): (r: seq<Outage>)
    ensures multiset(r) == multiset(os)
  {
    if os == [] then []
    else
      assert os == [os[0]] + os[1..];
      Place(os[0], Sort(os[1..], le), le)
  }

  lemma {:induction false} PlaceKeepsOrder(o: Outage, rows: seq<Outage>, le: Order)
    requires Total(le) && Increasing(rows, le)
    ensures Increasing(Place(o, rows, le), le)
  {
    if rows != [] && !le(o, rows[0]) {
      PlaceKeepsOrder(o, rows[1..], le);
      var tail := Place(o, rows[1..], le);
      forall k | 0 <= k < |tail| ensures le(rows[0], tail[k]) {
        assert tail[k] in multiset(tail);
        assert tail[k] == o || tail[k] in rows[1..];
      }
    }
  }

  lemma {:induction false} SortOrders(os: seq<Outage>, le: Order)
    requires Total(le)
    ensures Increasing(Sort(os, le), le)
  {
    if os != [] {
      SortOrders(os[1..], le);
      PlaceKeepsOrder(os[0], Sort(os[1..], le), le);
    }
  }

  lemma SameElements(a: seq<Outage>, b: seq<Outage>)
    requires multiset(a) == multiset(b)
    ensures forall o :: o in a <==> o in b
  {
    forall o ensures o in a <==> o in b { assert (o in a <==> o in multiset(a)) && (o in b <==> o in multiset(b)); }
  }

  // -- sampled schedules -----------------------------------------------------------------------

  /** A sampled number of ticks. */
  type Ticks = x: int | x >= 1 witness 1

  function End(rows: seq<Outage>): int {
    if rows == [] then 0 else rows[|rows| - 1].end
  }

  /** Row `i` starts `up(i)` ticks after the previous repair and lasts `repair(i)` ticks, or up to the clip. */
  ghost predicate Drawn(rows: seq<Outage>, m: nat, up: nat -> Ticks, repair: nat -> Ticks, clip: Option<int>) {
    && (forall i {:trigger rows[i]} :: 0 <= i < |rows| ==>
          && rows[i].machine == m
          && (if clip.Some? && clip.value < rows[i].start + repair(i) then rows[i].end == clip.value
              else rows[i].end == rows[i].start + repair(i)))
    && (rows != [] ==> rows[0].start == up(0))
    && forall i, k {:trigger rows[i], rows[k]} :: 0 <= i < |rows| && k == i + 1 < |rows| ==> rows[k].start == rows[i].end + up(k)
  }

  /** Every sampled row that starts before the horizon, and no other. */
  ghost predicate Schedule(rows: seq<Outage>, m: nat, up: nat -> Ticks, repair: nat -> Ticks, horizon: int, clip: Option<int>) {
    && Drawn(rows, m, up, repair, clip)
    && (forall i :: 0 <= i < |rows| ==> rows[i].start < horizon)
    && (if rows == [] then 0 else rows[|rows| - 1].end) + up(|rows|) >= horizon
  }

  lemma DrawnOne(rows: seq<Outage>, o: Outage, m: nat, up: nat -> Ticks, repair: nat -> Ticks, clip: Option<int>)
    requires Drawn(rows, m, up, repair, clip)
    requires o.machine == m && o.start == End(rows) + up(|rows|)
    requires if clip.Some? && clip.value < o.start + repair(|rows|) then o.end == clip.value else o.end == o.start + repair(|rows|)
    ensures Drawn(rows + [o], m, up, repair, clip) && End(rows + [o]) == o.end
  {
  }

  lemma NoneDrawn(m: nat, up: nat -> Ticks, repair: nat -> Ticks, clip: Option<int>)
    ensures Drawn([], m, up, repair, clip)
  {
  }

  /** The scenario generator's loop for one machine. */
  method SampleFaults(m: nat, up: nat -> Ticks, repair: nat -> Ticks, horizon: int) returns (rows: seq<Outage>)
    ensures Schedule(rows, m, up, repair, horizon, None)
  {
    hide Drawn;
    rows := [];
    NoneDrawn(m, up, repair, None);
    var t, n := 0, 0;
    while t < horizon
      invariant Drawn(rows, m, up, repair, None) && forall i :: 0 <= i < |rows| ==> rows[i].start < horizon
      invariant t < horizon ==> t == End(rows) && n == |rows|
      invariant t >= horizon ==> End(rows) + up(|rows|) >= horizon
      decreases horizon - t
    {
      t := t + up(n);
      var lasting := repair(n);
      if t < horizon {
        var o := Outage(m, t, t + lasting);
        DrawnOne(rows, o, m, up, repair, None);
        rows := rows + [o];
      }
      t, n := t + lasting, n + 1;
    }
  }

  /** The factory's own reliability schedule: stops at the horizon and clips the last repair to it. */
  method SampleReliability(m: nat, up: nat -> Ticks, repair: nat -> Ticks, horizon: int) returns (rows: seq<Outage>)
    requires horizon >= 1
    ensures Schedule(rows, m, up, repair, horizon, Some(horizon))
  {
    hide Drawn;
    rows := [];
    NoneDrawn(m, up, repair, Some(horizon));
    var repaired := 0;
    while repaired < horizon
      invariant Drawn(rows, m, up, repair, Some(horizon)) && forall i :: 0 <= i < |rows| ==> rows[i].start < horizon
      invariant repaired == End(rows) <= horizon
      decreases horizon - repaired
    {
      var start := repaired + up(|rows|);
      if start >= horizon { break; }
      repaired := if start + repair(|rows|) < horizon then start + repair(|rows|) else horizon;
      var o := Outage(m, start, repaired);
      DrawnOne(rows, o, m, up, repair, Some(horizon));
      rows := rows + [o];
    }
  }

  /** What both schedules promise: positive length, each start strictly after the previous end. */
  lemma {:induction false} ScheduleApart(rows: seq<Outage>, m: nat, up: nat -> Ticks, repair: nat -> Ticks, horizon: int, clip: Option<int>, i: nat, k: nat)
    requires Schedule(rows, m, up, repair, horizon, clip) && (clip.Some? ==> clip.value == horizon) && i <= k < |rows|
    ensures 0 < rows[i].start < rows[i].end && (clip.Some? ==> rows[i].end <= horizon)
    ensures i < k ==> rows[i].end < rows[k].start
    decreases k
  {
    assert rows[i].start < horizon && rows[k].start < horizon;
    if k > 0 {
      ScheduleApart(rows, m, up, repair, horizon, clip, if i < k then i else k - 1, k - 1);
      assert rows[k].start == rows[k - 1].end + up(k);
    }
  }

  /** One machine's rows, in the order they are listed. */
  function Of(os: seq<Outage>, m: nat): seq<Outage> {
    if os == [] then []
    else if os[|os| - 1].machine == m then Of(os[..|os| - 1], m) + [os[|os| - 1]]
    else Of(os[..|os| - 1], m)
  }

  lemma {:induction false} OfConcat(a: seq<Outage>, b: seq<Outage>, m: nat)
    ensures Of(a + b, m) == Of(a, m) + Of(b, m)
  {
    if b == [] {
      assert a + b == a;
    } else {
      var n := |b| - 1;
      assert (a + b)[..|a + b| - 1] == a + b[..n];
      OfConcat(a, b[..n], m);
    }
  }

  lemma {:induction false} OfOne(rows: seq<Outage>, m: nat, other: nat)
    requires forall o :: o in rows ==> o.machine == m
    ensures Of(rows, other) == if other == m then rows else []
  {
    if rows != [] {
      var n := |rows| - 1;
      assert rows == rows[..n] + [rows[n]];
      OfOne(rows[..n], m, other);
    }
  }

  /** What the generators know of a machine: its draws, or that its faults are switched off. */
  datatype Fault = Fault(enabled: bool, up: nat -> Ticks, repair: nat -> Ticks)

  ghost predicate Scheduled(rows: seq<Outage>, m: nat, fault: Fault, horizon: int, clip: Option<int>) {
    if fault.enabled then Schedule(rows, m, fault.up, fault.repair, horizon, clip) else rows == []
  }

  /** Per machine of the factory its schedule, and nothing for any other. */
  ghost predicate Calendar(os: seq<Outage>, machines: seq<nat>, faults: map<nat, Fault>, horizon: int, clip: Option<int>)
    requires forall m :: m in machines ==> m in faults
  {
    && (forall m {:trigger Of(os, m)} :: m in machines ==> Scheduled(Of(os, m), m, faults[m], horizon, clip))
    && (forall o :: o in os ==> o.machine in machines)
    && Disjoint(os) && Proper(os)
  }

  lemma ScheduledApart(rows: seq<Outage>, m: nat, fault: Fault, horizon: int, clip: Option<int>)
    requires Scheduled(rows, m, fault, horizon, clip) && (clip.Some? ==> clip.value == horizon)
    ensures Proper(rows) && Disjoint(rows) && forall o :: o in rows ==> o.machine == m
  {
    if fault.enabled {
      forall i, k | 0 <= i <= k < |rows| ensures 0 < rows[i].start < rows[i].end && (i < k ==> rows[i].end < rows[k].start) {
        ScheduleApart(rows, m, fault.up, fault.repair, horizon, clip, i, k);
      }
    }
  }

  lemma ConcatApart(a: seq<Outage>, b: seq<Outage>)
    requires Disjoint(a) && Disjoint(b) && forall x, y :: x in a && y in b ==> x.machine != y.machine
    ensures Disjoint(a + b)
  {
    forall i, k | 0 <= i < k < |a + b| ensures Apart((a + b)[i], (a + b)[k]) {
      if i < |a| && k >= |a| { assert a[i] in a && b[k - |a|] in b; }
      else if k < |a| { assert Apart(a[i], a[k]); }
      else { assert Apart(b[i - |a|], b[k - |a|]); }
    }
  }

  lemma {:induction false} OfAnother(os: seq<Outage>, m: nat)
    requires forall o :: o in os ==> o.machine != m
    ensures Of(os, m) == []
  {
    if os != [] { OfAnother(os[..|os| - 1], m); }
  }

  lemma ConcatProper(a: seq<Outage>, b: seq<Outage>)
    requires Proper(a) && Proper(b)
    ensures Proper(a + b)
  {
  }

  lemma OfMore(os: seq<Outage>, rows: seq<Outage>, m: nat, x: nat)
    requires (forall o :: o in os ==> o.machine != m) && forall o :: o in rows ==> o.machine == m
    ensures Of(os + rows, x) == if x == m then rows else Of(os, x)
  {
    hide *;
    OfConcat(os, rows, x);
    OfOne(rows, m, x);
    if x == m { OfAnother(os, m); }
    var a, b := Of(os, x), Of(rows, x);
    assert a == [] ==> a + b == b;
    assert b == [] ==> a + b == a;
  }

  /** One more machine's schedule at the end of the calendar. */
  lemma CalendarOne(os: seq<Outage>, rows: seq<Outage>, machines: seq<nat>, m: nat, faults: map<nat, Fault>, horizon: int, clip: Option<int>)
    requires (forall x :: x in machines ==> x in faults) && m in faults && m !in machines && (clip.Some? ==> clip.value == horizon)
    requires Calendar(os, machines, faults, horizon, clip) && Scheduled(rows, m, faults[m], horizon, clip)
    ensures Calendar(os + rows, machines + [m], faults, horizon, clip)
  {
    hide Scheduled, Disjoint, Of, Proper;
    ScheduledApart(rows, m, faults[m], horizon, clip);
    ConcatApart(os, rows);
    ConcatProper(os, rows);
    forall x | x in machines + [m] ensures Scheduled(Of(os + rows, x), x, faults[x], horizon, clip) {
      OfMore(os, rows, m, x);
      if x != m { assert Scheduled(Of(os, x), x, faults[x], horizon, clip); }
    }
  }

  lemma NoCalendar(faults: map<nat, Fault>, horizon: int, clip: Option<int>)
    ensures Calendar([], [], faults, horizon, clip)
  {
  }

  lemma OneScheduled(rows: seq<Outage>, m: nat, fault: Fault, horizon: int, clip: Option<int>)
    requires if fault.enabled then Schedule(rows, m, fault.up, fault.repair, horizon, clip) else rows == []
    ensures Scheduled(rows, m, fault, horizon, clip)
  {
  }

  lemma CalendarParts(os: seq<Outage>, machines: seq<nat>, faults: map<nat, Fault>, horizon: int, clip: Option<int>)
    requires (forall m :: m in machines ==> m in faults) && Calendar(os, machines, faults, horizon, clip)
    ensures Proper(os) && Disjoint(os)
  {
  }

  /** `generate_scenario`, the outage part. */
  method GenerateOutages(machines: seq<nat>, faults: map<nat, Fault>, horizon: int) returns (outages: seq<Outage>)
    requires NoDup(machines) && forall m :: m in machines ==> m in faults
    ensures Calendar(outages, machines, faults, horizon, None)
  {
    hide *;
    outages := [];
    NoCalendar(faults, horizon, None);
    for i := 0 to |machines|
      invariant Calendar(outages, machines[..i], faults, horizon, None)
    {
      var m := machines[i];
      var rows := [];
      if faults[m].enabled { rows := SampleFaults(m, faults[m].up, faults[m].repair, horizon); }
      NotEarlier(machines, i);
      OneScheduled(rows, m, faults[m], horizon, None);
      CalendarOne(outages, rows, machines[..i], m, faults, horizon, None);
      assert machines[..i + 1] == machines[..i] + [m];
      outages := outages + rows;
    }
    assert machines[..|machines|] == machines;
  }

  predicate ByStart(a: Outage, b: Outage) {
    a.start < b.start || (a.start == b.start && a.machine <= b.machine)
  }

  lemma StartsTotal()
    ensures Total(ByStart)
  {
  }

  /** `factory_reliability_outages`: the same rows, listed by start. */
  method ReliabilityOutages(machines: seq<nat>, faults: map<nat, Fault>, horizon: int) returns (outages: seq<Outage>)
    requires NoDup(machines) && horizon >= 1 && forall m :: m in machines ==> m in faults
    ensures exists drawn :: Calendar(drawn, machines, faults, horizon, Some(horizon)) && multiset(outages) == multiset(drawn)
    ensures Increasing(outages, ByStart) && Proper(outages) && Disjoint(outages)
  {
    hide *;
    var rows := [];
    NoCalendar(faults, horizon, Some(horizon));
    for i := 0 to |machines|
      invariant Calendar(rows, machines[..i], faults, horizon, Some(horizon))
    {
      var m := machines[i];
      var more := [];
      if faults[m].enabled { more := SampleReliability(m, faults[m].up, faults[m].repair, horizon); }
      NotEarlier(machines, i);
      OneScheduled(more, m, faults[m], horizon, Some(horizon));
      CalendarOne(rows, more, machines[..i], m, faults, horizon, Some(horizon));
      assert machines[..i + 1] == machines[..i] + [m];
      rows := rows + more;
    }
    assert machines[..|machines|] == machines;
    outages := Sort(rows, ByStart);
    StartsTotal();
    SortOrders(rows, ByStart);
    CalendarParts(rows, machines, faults, horizon, Some(horizon));
    ReorderedDisjoint(rows, outages);
  }

  /** Being proper and disjoint does not depend on the order of the rows. */
  lemma ReorderedDisjoint(a: seq<Outage>, b: seq<Outage>)
    requires Proper(a) && Disjoint(a) && multiset(a) == multiset(b)
    ensures Proper(b) && Disjoint(b)
  {
    SameElements(a, b);
    forall i, k | 0 <= i < k < |b| ensures Apart(b[i], b[k]) {
      DisjointOnce(a, b[k]);
      OnceMeansDistinct(b, i, k);
      assert b[i] in b && b[k] in b;
      var x :| 0 <= x < |a| && a[x] == b[i];
      var y :| 0 <= y < |a| && a[y] == b[k];
      assert Apart(a[x], a[y]) || Apart(a[y], a[x]);
    }
  }

  /** On every generated calendar the bisected lookup is the linear scan, at every tick. */
  lemma GeneratedCalendarsAgree(os: seq<Outage>, machines: seq<nat>, faults: map<nat, Fault>, horizon: int, clip: Option<int>, listed: seq<Outage>, m: nat, t: int)
    requires (forall x :: x in machines ==> x in faults) && Calendar(os, machines, faults, horizon, clip) && multiset(listed) == multiset(os)
    ensures DownAt(listed, m, t) == Covered(listed, m, t) == Covered(os, m, t)
  {
    ReorderedDisjoint(os, listed);
    DisjointCalendarsAgree(listed, m, t);
    SameElements(os, listed);
  }

  // -- the merged form -------------------------------------------------------------------------

  predicate ByMachine(a: Outage, b: Outage) {
    a.machine < b.machine || (a.machine == b.machine && (a.start < b.start || (a.start == b.start && a.end <= b.end)))
  }

  /** The next row of the same machine starts after a gap. */
  predicate Separated(a: Outage, b: Outage) {
    a.machine < b.machine || (a.machine == b.machine && a.end < b.start)
  }

  ghost predicate Canonical(rows: seq<Outage>) {
    Proper(rows) && forall i, k :: 0 <= i < k < |rows| ==> Separated(rows[i], rows[k])
  }

  ghost predicate SameCoverage(a: seq<Outage>, b: seq<Outage>) {
    forall m, t :: Covered(a, m, t) <==> Covered(b, m, t)
  }

  predicate Touches(last: Outage, row: Outage) {
    last.machine == row.machine && row.start <= last.end
  }

  lemma MachinesTotal()
    ensures Total(ByMachine)
  {
  }

  /** The loop has covered the first `i` sorted rows, and none of the rest starts before the last one. */
  ghost predicate Merging(merged: seq<Outage>, rows: seq<Outage>, i: nat)
    requires i <= |rows|
  {
    && Canonical(merged) && SameCoverage(merged, rows[..i])
    && forall k :: i <= k < |rows| && merged != [] ==> NotBefore(merged[|merged| - 1], rows[k])
  }

  lemma MergeStarts(rows: seq<Outage>)
    ensures Merging([], rows, 0)
  {
  }

  lemma MergeNext(merged: seq<Outage>, rows: seq<Outage>, i: nat, more: seq<Outage>)
    requires i < |rows| && Proper(rows) && Increasing(rows, ByMachine) && Merging(merged, rows, i)
    requires if merged != [] && Touches(merged[|merged| - 1], rows[i])
             then more == merged[..|merged| - 1] + [Joined(merged[|merged| - 1], rows[i])] else more == merged + [rows[i]]
    ensures Merging(more, rows, i + 1)
  {
    hide Canonical, SameCoverage;
    var row := rows[i];
    assert row in rows && rows[..i + 1] == rows[..i] + [row];
    if merged != [] && Touches(merged[|merged| - 1], row) { Extend(merged, row, rows[..i]); } else { AppendRow(merged, row, rows[..i]); }
    forall k | i + 1 <= k < |rows| ensures NotBefore(more[|more| - 1], rows[k]) { assert ByMachine(rows[i], rows[k]); }
  }

  lemma MergeEnds(merged: seq<Outage>, rows: seq<Outage>, outages: seq<Outage>)
    requires Merging(merged, rows, |rows|) && multiset(rows) == multiset(outages)
    ensures Canonical(merged) && SameCoverage(merged, outages)
  {
    hide Canonical;
    assert rows[..|rows|] == rows;
    SameElements(rows, outages);
  }

  /** `MachineOutagePlan.__post_init__` */
  method MergeOutages(outages: seq<Outage>) returns (merged: seq<Outage>)
    requires Proper(outages)
    ensures Canonical(merged) && SameCoverage(merged, outages)
    ensures Canonical(outages) ==> merged == outages
  {
    SameElements(outages, Sort(outages, ByMachine));
    assert Proper(Sort(outages, ByMachine));
    hide *;
    var rows := Sort(outages, ByMachine);
    MachinesTotal();
    SortOrders(outages, ByMachine);
    merged := [];
    MergeStarts(rows);
    for i := 0 to |rows|
      invariant Merging(merged, rows, i)
    {
      var row := rows[i];
      ghost var before := merged;
      if merged != [] && Touches(merged[|merged| - 1], row) {
        var previous := merged[|merged| - 1];
        merged := merged[..|merged| - 1];
        row := Joined(previous, row);
      }
      merged := merged + [row];
      MergeNext(before, rows, i, merged);
    }
    MergeEnds(merged, rows, outages);
    UniqueIfCanonical(merged, outages);
  }

  /** The wider row. */
  function Joined(previous: Outage, row: Outage): Outage {
    Outage(row.machine, previous.start, if previous.end < row.end then row.end else previous.end)
  }

  lemma UniqueIfCanonical(a: seq<Outage>, b: seq<Outage>)
    requires Canonical(a) && SameCoverage(a, b)
    ensures Canonical(b) ==> a == b
  {
    if Canonical(b) { CanonicalIsUnique(a, b); }
  }

  predicate NotBefore(last: Outage, row: Outage) {
    last.machine < row.machine || (last.machine == row.machine && last.start <= row.start)
  }

  lemma CoverLast(rows: seq<Outage>, row: Outage, m: nat, t: int)
    ensures Covered(rows + [row], m, t) <==> Covered(rows, m, t) || (row.machine == m && row.start <= t < row.end)
  {
    assert forall o :: o in rows + [row] <==> o in rows || o == row;
  }

  lemma AppendRow(merged: seq<Outage>, row: Outage, rows: seq<Outage>)
    requires Canonical(merged) && SameCoverage(merged, rows) && 0 <= row.start < row.end
    requires merged != [] ==> NotBefore(merged[|merged| - 1], row) && !Touches(merged[|merged| - 1], row)
    ensures Canonical(merged + [row]) && SameCoverage(merged + [row], rows + [row])
  {
    forall i | 0 <= i < |merged| ensures Separated(merged[i], row) {
      assert i < |merged| - 1 ==> Separated(merged[i], merged[|merged| - 1]);
      assert merged[|merged| - 1] in merged;
    }
    forall m, t ensures Covered(merged + [row], m, t) <==> Covered(rows + [row], m, t) {
      CoverLast(merged, row, m, t);
      CoverLast(rows, row, m, t);
    }
  }

  lemma Extend(merged: seq<Outage>, row: Outage, rows: seq<Outage>)
    requires Canonical(merged) && SameCoverage(merged, rows) && 0 <= row.start < row.end
    requires merged != [] && NotBefore(merged[|merged| - 1], row) && Touches(merged[|merged| - 1], row)
    ensures var last := merged[|merged| - 1];
            var wider := merged[..|merged| - 1] + [Joined(last, row)];
            Canonical(wider) && SameCoverage(wider, rows + [row])
  {
    var last, init := merged[|merged| - 1], merged[..|merged| - 1];
    var joined := Joined(last, row);
    assert last in merged && merged == init + [last];
    forall i | 0 <= i < |init| ensures Separated(init[i], joined) { assert Separated(merged[i], last); }
    forall m, t ensures Covered(init + [joined], m, t) <==> Covered(rows + [row], m, t) {
      CoverLast(init, joined, m, t);
      CoverLast(init, last, m, t);
      CoverLast(rows, row, m, t);
    }
  }

  lemma FirstCovered(rows: seq<Outage>, m: nat, t: int)
    requires Canonical(rows) && Covered(rows, m, t)
    ensures rows != [] && (rows[0].machine < m || (rows[0].machine == m && rows[0].start <= t))
  {
    var o :| o in rows && o.machine == m && o.start <= t < o.end;
    var i :| 0 <= i < |rows| && rows[i] == o;
    if i > 0 { assert Separated(rows[0], rows[i]); assert rows[0] in rows; }
  }

  lemma GapAfterFirst(rows: seq<Outage>)
    requires Canonical(rows) && rows != []
    ensures !Covered(rows, rows[0].machine, rows[0].end)
  {
    forall i | 0 <= i < |rows| && rows[i].machine == rows[0].machine ensures !(rows[i].start <= rows[0].end < rows[i].end) {
      if i > 0 { assert Separated(rows[0], rows[i]); }
    }
  }

  /** The first row is determined by what is covered. */
  lemma FirstRow(a: seq<Outage>, b: seq<Outage>)
    requires Canonical(a) && Canonical(b) && SameCoverage(a, b) && a != []
    ensures b != [] && a[0].machine == b[0].machine && a[0].start == b[0].start && a[0].end <= b[0].end
  {
    assert a[0] in a && Covered(a, a[0].machine, a[0].start);
    FirstCovered(b, a[0].machine, a[0].start);
    assert b[0] in b && Covered(b, b[0].machine, b[0].start);
    FirstCovered(a, b[0].machine, b[0].start);
    assert a[0].start <= b[0].end < a[0].end ==> Covered(a, a[0].machine, b[0].end);
    GapAfterFirst(b);
  }

  lemma CoverRest(rows: seq<Outage>, m: nat, t: int)
    requires Canonical(rows) && rows != []
    ensures Covered(rows[1..], m, t) <==> Covered(rows, m, t) && !(rows[0].machine == m && rows[0].start <= t < rows[0].end)
  {
    assert forall o :: o in rows <==> o == rows[0] || o in rows[1..];
    if Covered(rows[1..], m, t) {
      var o :| o in rows[1..] && o.machine == m && o.start <= t < o.end;
      var i :| 0 <= i < |rows[1..]| && rows[1..][i] == o;
      assert Separated(rows[0], rows[i + 1]);
    }
  }

  /** Two merged plans that cover the same machine ticks are the same plan. */
  lemma {:induction false} CanonicalIsUnique(a: seq<Outage>, b: seq<Outage>)
    requires Canonical(a) && Canonical(b) && SameCoverage(a, b)
    ensures a == b
    decreases |a|
  {
    if a != [] {
      FirstRow(a, b);
      FirstRow(b, a);
      assert a[0] == b[0];
      forall m, t ensures Covered(a[1..], m, t) <==> Covered(b[1..], m, t) {
        CoverRest(a, m, t);
        CoverRest(b, m, t);
      }
      assert Canonical(a[1..]) && Canonical(b[1..]);
      CanonicalIsUnique(a[1..], b[1..]);
      assert a == [a[0]] + a[1..] && b == [b[0]] + b[1..];
    } else if b != [] {
      FirstRow(b, a);
    }
  }

  /** Merged plans need no further condition for the bisected lookup. */
  lemma MergedPlansAgree(rows: seq<Outage>, m: nat, t: int)
    requires Canonical(rows)
    ensures DownAt(rows, m, t) == Covered(rows, m, t)
  {
    forall i, k | 0 <= i < k < |rows| ensures Apart(rows[i], rows[k]) { assert Separated(rows[i], rows[k]); }
    DisjointCalendarsAgree(rows, m, t);
  }
}
