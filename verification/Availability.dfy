/** Machine availability: the outage calendar, the bisected lookup the protocol uses at every tick, and
    the linear scan the simulator uses before the protocol exists. */
module Availability {
  datatype Outage = Outage(machine: nat, start: int, end: int)

  /** The domain constructor rejects anything else. */
  ghost predicate Proper(os: seq<Outage>) {
    forall o :: o in os ==> 0 <= o.start < o.end
  }

  /** Linear scan over the whole calendar. */
  predicate Covered(os: seq<Outage>, m: nat, t: int) {
    exists o :: o in os && o.machine == m && o.start <= t < o.end
  }

  predicate Before(a: Outage, b: Outage) {
    a.start < b.start || (a.start == b.start && a.end <= b.end)
  }

  ghost predicate Ordered(rows: seq<Outage>) {
    forall i, k :: 0 <= i < k < |rows| ==> Before(rows[i], rows[k])
  }

  function Insert(o: Outage, rows: seq<Outage>): seq<Outage> {
    if rows == [] then [o]
    else if Before(o, rows[0]) then [o] + rows
    else [rows[0]] + Insert(o, rows[1..])
  }

  /** One machine's intervals, sorted by start and then end. */
  function Rows(os: seq<Outage>, m: nat): seq<Outage> {
    if os == [] then []
    else if os[0].machine == m then Insert(os[0], Rows(os[1..], m))
    else Rows(os[1..], m)
  }

  /** `bisect_right` on the interval starts: the number of leading rows that have started. */
  function Started(rows: seq<Outage>, t: int): (n: nat)
    ensures n <= |rows|
    ensures n > 0 ==> rows[n - 1].start <= t
  {
    if rows == [] then 0
    else if rows[|rows| - 1].start <= t then |rows|
    else Started(rows[..|rows| - 1], t)
  }

  predicate DownAt(os: seq<Outage>, m: nat, t: int) {
    var rows := Rows(os, m);
    var n := Started(rows, t);
    n > 0 && t < rows[n - 1].end
  }

  lemma {:induction false} InsertKeepsOrder(o: Outage, rows: seq<Outage>)
    requires Ordered(rows)
    ensures Ordered(Insert(o, rows))
    ensures forall x :: x in Insert(o, rows) <==> x == o || x in rows
  {
    if rows != [] && !Before(o, rows[0]) {
      InsertKeepsOrder(o, rows[1..]);
      var tail := Insert(o, rows[1..]);
      assert forall x :: x in rows <==> x == rows[0] || x in rows[1..];
      assert forall x :: x in [rows[0]] + tail <==> x == rows[0] || x in tail;
      forall i, k | 0 <= i < k < |[rows[0]] + tail|
        ensures Before(([rows[0]] + tail)[i], ([rows[0]] + tail)[k])
      {
        if i == 0 { assert tail[k - 1] in tail; }
      }
    }
  }

  lemma {:induction false} RowsMeaning(os: seq<Outage>, m: nat)
    ensures Ordered(Rows(os, m))
    ensures forall x :: x in Rows(os, m) <==> x in os && x.machine == m
  {
    if os != [] {
      RowsMeaning(os[1..], m);
      assert forall x :: x in os <==> x == os[0] || x in os[1..];
      if os[0].machine == m {
        InsertKeepsOrder(os[0], Rows(os[1..], m));
      }
    }
  }

  lemma {:induction false} StartedMeaning(rows: seq<Outage>, t: int)
    requires Ordered(rows)
    ensures forall i :: 0 <= i < |rows| ==> (rows[i].start <= t <==> i < Started(rows, t))
  {
    if rows != [] && rows[|rows| - 1].start > t {
      StartedMeaning(rows[..|rows| - 1], t);
    }
  }

  /** No interval is hidden behind a later one that ends earlier, unless the next interval has
      begun by then. Sorted disjoint calendars satisfy this. */
  ghost predicate Unmasked(rows: seq<Outage>) {
    forall i, k :: 0 <= i < k < |rows| ==> Visible(rows, i, k)
  }

  ghost predicate Visible(rows: seq<Outage>, i: nat, k: nat)
    requires i < k < |rows|
  {
    rows[i].end <= rows[k].end || (k + 1 < |rows| && rows[k + 1].start <= rows[k].end)
  }

  /** The bisected lookup and the linear scan agree at every tick exactly on unmasked calendars. */
  lemma BisectionAgreesExactly(os: seq<Outage>, m: nat)
    requires Proper(os)
    ensures (forall t :: DownAt(os, m, t) == Covered(os, m, t)) <==> Unmasked(Rows(os, m))
  {
    var rows := Rows(os, m);
    RowsMeaning(os, m);
    if Unmasked(rows) {
      forall t ensures DownAt(os, m, t) == Covered(os, m, t) {
        UnmaskedAgrees(os, m, t);
      }
    } else {
      var i, k :| 0 <= i < k < |rows| && !Visible(rows, i, k);
      MaskedDiffers(os, m, i, k);
      assert DownAt(os, m, rows[k].end) != Covered(os, m, rows[k].end);
    }
  }

  lemma UnmaskedAgrees(os: seq<Outage>, m: nat, t: int)
    requires Proper(os) && Unmasked(Rows(os, m))
    ensures DownAt(os, m, t) == Covered(os, m, t)
  {
    var rows := Rows(os, m);
    RowsMeaning(os, m);
    StartedMeaning(rows, t);
    var n := Started(rows, t);
    if DownAt(os, m, t) {
      assert rows[n - 1] in rows;
    }
    if Covered(os, m, t) {
      var o :| o in os && o.machine == m && o.start <= t < o.end;
      assert o in rows;
      var i :| 0 <= i < |rows| && rows[i] == o;
      assert i < n;
      if i < n - 1 {
        assert Visible(rows, i, n - 1);
        if n < |rows| { assert !(rows[n].start <= t); }
      }
    }
  }

  lemma StartedIs(rows: seq<Outage>, k: nat, t: int)
    requires Ordered(rows) && k < |rows| && rows[k].start <= t
    requires k + 1 < |rows| ==> t < rows[k + 1].start
    ensures Started(rows, t) == k + 1
  {
    StartedMeaning(rows, t);
  }

  lemma MaskedRows(rows: seq<Outage>, i: nat, k: nat)
    requires Ordered(rows) && i < k < |rows| && !Visible(rows, i, k)
    requires rows[k].start < rows[k].end
    ensures Started(rows, rows[k].end) == k + 1
    ensures rows[i].start <= rows[k].end < rows[i].end
  {
    assert Before(rows[i], rows[k]);
    StartedIs(rows, k, rows[k].end);
  }

  lemma MaskedDiffers(os: seq<Outage>, m: nat, i: nat, k: nat)
    requires Proper(os)
    requires i < k < |Rows(os, m)|
    requires !Visible(Rows(os, m), i, k)
    ensures Covered(os, m, Rows(os, m)[k].end) && !DownAt(os, m, Rows(os, m)[k].end)
  {
    var rows := Rows(os, m);
    var t := rows[k].end;
    assert Ordered(rows) && rows[i] in os && rows[k] in os && rows[i].machine == m by {
      RowsMeaning(os, m);
      assert rows[i] in rows && rows[k] in rows;
    }
    MaskedRows(rows, i, k);
    assert rows[i].start <= t < rows[i].end;
    assert Started(Rows(os, m), t) == k + 1;
  }

  /** A short outage inside a long one hides the rest of it from the bisected lookup. */
  lemma NestedOutagesDiffer()
    ensures var os := [Outage(0, 0, 10), Outage(0, 2, 4)]; Proper(os) && Covered(os, 0, 4) && !DownAt(os, 0, 4)
  {
    var long, short := Outage(0, 0, 10), Outage(0, 2, 4);
    assert Rows([short], 0) == [short] && [long, short][1..] == [short];
    assert Rows([long, short], 0) == [long, short];
    assert !Visible(Rows([long, short], 0), 0, 1);
    MaskedDiffers([long, short], 0, 0, 1);
  }

  /** Per machine, any two intervals are apart. */
  ghost predicate Disjoint(os: seq<Outage>) {
    forall i, k :: 0 <= i < k < |os| ==> Apart(os[i], os[k])
  }

  ghost predicate Apart(a: Outage, b: Outage) {
    a.machine == b.machine ==> a.end <= b.start || b.end <= a.start
  }

  lemma {:induction false} InsertMultiset(o: Outage, rows: seq<Outage>)
    ensures multiset(Insert(o, rows)) == multiset(rows) + multiset{o}
  {
    if rows != [] && !Before(o, rows[0]) {
      InsertMultiset(o, rows[1..]);
      assert rows == [rows[0]] + rows[1..];
    }
  }

  lemma {:induction false} RowsMultiset(os: seq<Outage>, m: nat)
    ensures multiset(Rows(os, m)) <= multiset(os)
  {
    if os != [] {
      RowsMultiset(os[1..], m);
      assert os == [os[0]] + os[1..];
      if os[0].machine == m { InsertMultiset(os[0], Rows(os[1..], m)); }
    }
  }

  /** A proper disjoint calendar lists every interval once. */
  lemma {:induction false} DisjointOnce(os: seq<Outage>, x: Outage)
    requires Proper(os) && Disjoint(os)
    ensures multiset(os)[x] <= 1
  {
    if os != [] {
      var head, tail := os[0], os[1..];
      assert os == [head] + tail;
      DisjointOnce(tail, x);
      forall o | o in tail
        ensures o != head
      {
        assert head in os && Apart(head, o);
      }
    }
  }

  lemma OnceMeansDistinct(rows: seq<Outage>, i: nat, k: nat)
    requires i < k < |rows| && multiset(rows)[rows[k]] <= 1
    ensures rows[i] != rows[k]
  {
    assert rows == rows[..k] + [rows[k]] + rows[k + 1..];
    assert rows[i] in multiset(rows[..k]);
  }

  lemma DisjointRowsApart(os: seq<Outage>, m: nat, i: nat, k: nat)
    requires Proper(os) && Disjoint(os)
    requires i < k < |Rows(os, m)|
    ensures Rows(os, m)[i].end <= Rows(os, m)[k].start
  {
    var rows := Rows(os, m);
    RowsMeaning(os, m);
    assert rows[i] in rows && rows[k] in rows && Before(rows[i], rows[k]);
    RowsMultiset(os, m);
    DisjointOnce(os, rows[k]);
    OnceMeansDistinct(rows, i, k);
    var a :| 0 <= a < |os| && os[a] == rows[i];
    var b :| 0 <= b < |os| && os[b] == rows[k];
    assert Apart(os[a], os[b]) || Apart(os[b], os[a]);
  }

  /** On the calendars both generators produce, the two lookups are the same function. */
  lemma DisjointCalendarsAgree(os: seq<Outage>, m: nat, t: int)
    requires Proper(os) && Disjoint(os)
    ensures DownAt(os, m, t) == Covered(os, m, t)
  {
    var rows := Rows(os, m);
    RowsMeaning(os, m);
    forall i, k | 0 <= i < k < |rows|
      ensures rows[i].end <= rows[k].end
    {
      DisjointRowsApart(os, m, i, k);
      assert rows[k] in rows;
    }
    assert Unmasked(rows) by {
      forall i, k | 0 <= i < k < |rows| ensures Visible(rows, i, k) { assert rows[i].end <= rows[k].end; }
    }
    UnmaskedAgrees(os, m, t);
  }

  /** No outage begins or ends strictly after `t0` and no later than `t1`. */
  ghost predicate NoEdge(os: seq<Outage>, t0: int, t1: int) {
    forall o :: o in os ==> !(t0 < o.start <= t1) && !(t0 < o.end <= t1)
  }

  lemma AvailabilityIsConstant(os: seq<Outage>, m: nat, t0: int, t1: int)
    requires t0 <= t1 && NoEdge(os, t0, t1)
    ensures DownAt(os, m, t0) == DownAt(os, m, t1)
  {
    var rows := Rows(os, m);
    RowsMeaning(os, m);
    StartedMeaning(rows, t0);
    StartedMeaning(rows, t1);
    var n0, n1 := Started(rows, t0), Started(rows, t1);
    forall i | 0 <= i < |rows|
      ensures rows[i].start <= t0 <==> rows[i].start <= t1
    {
      assert rows[i] in rows;
    }
    if n0 < |rows| { assert rows[n0].start <= t1 <==> n0 < n1; }
    if n1 < |rows| { assert rows[n1].start <= t0 <==> n1 < n0; }
    if n0 > 0 { assert rows[n0 - 1] in rows; }
  }
}
