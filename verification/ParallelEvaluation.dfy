/** Cases evaluated by a bounded pool of workers. Results arrive in any order; the caller sees them in
    the frozen order, each once, exactly as one worker would produce them. */
module ParallelEvaluation {
  import opened Collections

  type Case = nat
  type Connection = nat

  /** What one connection delivers when it is ready: progress, a result, an error report or a closed pipe. */
  datatype Message<V> = Progress(item: Case) | Result(item: Case, value: V) | Error | Gone | Unknown(item: Case)

  datatype Ending = Finished | Raised | Waiting

  /** The results of one round of waiting, by connection. */
  type Round<V> = map<Connection, Message<V>>

  /** A worker computes the case it names. */
  ghost predicate Honest<V(!new)>(round: Round<V>, evaluate: Case -> V) {
    forall c :: c in round && round[c].Result? ==> round[c].value == evaluate(round[c].item)
  }

  /** `workers == 1`: evaluate one after the other. */
  function Serial<V>(cases: seq<Case>, evaluate: Case -> V): (r: seq<(Case, V)>)
    ensures |r| == |cases| && forall i :: 0 <= i < |r| ==> r[i] == (cases[i], evaluate(cases[i]))
  {
    if cases == [] then []
    else Serial(cases[..|cases| - 1], evaluate) + [(cases[|cases| - 1], evaluate(cases[|cases| - 1]))]
  }

  function Least(a: nat, b: nat): nat {
    if a < b then a else b
  }

  /** The cases that are out with a worker or waiting for their turn, each once. */
  ghost predicate Holds<V>(active: map<Connection, Case>, completed: map<Case, (Connection, V)>, cases: set<Case>) {
    && (forall c :: c in active ==> active[c] in cases && active[c] !in completed)
    && (forall x :: x in completed ==> x in cases && completed[x].0 !in active)
    && (forall c, d {:trigger active[c], active[d]} :: c in active && d in active && active[c] == active[d] ==> c == d)
    && (forall x, y {:trigger completed[x], completed[y]} :: x in completed && y in completed && completed[x].0 == completed[y].0 ==> x == y)
    && forall x :: x in cases ==> x in completed || Running(active, x)
  }

  ghost predicate Running(active: map<Connection, Case>, x: Case) {
    exists c :: c in active && active[c] == x
  }

  function Window(cases: seq<Case>, lo: nat, hi: nat): set<Case>
    requires lo <= hi <= |cases|
  {
    set i | lo <= i < hi :: cases[i]
  }

  lemma {:induction false} WindowSize(cases: seq<Case>, lo: nat, hi: nat)
    requires lo <= hi <= |cases| && NoDup(cases)
    ensures |Window(cases, lo, hi)| == hi - lo
    decreases hi
  {
    if lo < hi {
      WindowSize(cases, lo, hi - 1);
      forall i | lo <= i < hi - 1 ensures cases[i] != cases[hi - 1] { NoDupIndex(cases, i, hi - 1); }
      assert Window(cases, lo, hi) == Window(cases, lo, hi - 1) + {cases[hi - 1]};
    } else {
      assert Window(cases, lo, hi) == {};
    }
  }

  /** Active and buffered cases together are as many as the window is long. */
  lemma HeldCount<V(!new)>(active: map<Connection, Case>, completed: map<Case, (Connection, V)>, cases: set<Case>)
    requires Holds(active, completed, cases)
    ensures |active| + |completed| == |cases|
  {
    var running := set c | c in active :: active[c];
    forall x | x in cases ensures x in running + completed.Keys { if x !in completed { assert Running(active, x); } }
    assert cases == running + completed.Keys;
    assert running !! completed.Keys;
    ImageSize(active, active.Keys, running);
    assert |running + completed.Keys| == |running| + |completed.Keys|;
    assert |active| == |active.Keys| && |completed| == |completed.Keys|;
  }

  lemma {:induction false} ImageSize(f: map<Connection, Case>, dom: set<Connection>, image: set<Case>)
    requires dom <= f.Keys && image == set c | c in dom :: f[c]
    requires forall c, d {:trigger f[c], f[d]} :: c in dom && d in dom && f[c] == f[d] ==> c == d
    ensures |image| == |dom|
    decreases |dom|
  {
    if dom == {} {
      assert image == {};
    } else {
      var c :| c in dom;
      var rest := dom - {c};
      var others := set d | d in rest :: f[d];
      ImageSize(f, rest, others);
      assert image == others + {f[c]};
      assert f[c] !in others;
    }
  }

  // -- single changes to what is held ----------------------------------------------------------

  lemma Dispatched<V>(active: map<Connection, Case>, completed: map<Case, (Connection, V)>, cases: set<Case>, c: Connection, x: Case)
    requires Holds(active, completed, cases) && c !in active && x !in cases && forall y :: y in completed ==> completed[y].0 != c
    ensures Holds(active[c := x], completed, cases + {x})
  {
    var more := active[c := x];
    forall y | y in cases + {x} ensures y in completed || Running(more, y) {
      if y == x {
        assert more[c] == x;
      } else if y !in completed {
        assert Running(active, y);
        var d :| d in active && active[d] == y;
        assert more[d] == y;
      }
    }
  }

  lemma Arrived<V>(active: map<Connection, Case>, completed: map<Case, (Connection, V)>, cases: set<Case>, c: Connection, value: V)
    requires Holds(active, completed, cases) && c in active
    ensures active[c] !in completed && Holds(active - {c}, completed[active[c] := (c, value)], cases)
  {
    var fewer, more := active - {c}, completed[active[c] := (c, value)];
    forall y | y in cases ensures y in more || Running(fewer, y) {
      if y !in more {
        assert Running(active, y);
        var d :| d in active && active[d] == y;
        assert fewer[d] == y;
      }
    }
  }

  lemma Taken<V>(active: map<Connection, Case>, completed: map<Case, (Connection, V)>, cases: set<Case>, x: Case)
    requires Holds(active, completed, cases) && x in completed
    ensures Holds(active, completed - {x}, cases - {x}) && completed[x].0 !in active
    ensures forall y :: y in completed - {x} ==> completed[y].0 != completed[x].0
  {
    forall y | y in cases - {x} ensures y in completed - {x} || Running(active, y) {}
  }

  /** An error report, a closed pipe, another worker's case or an unknown kind. */
  predicate Unexpected<V>(m: Message<V>, x: Case) {
    match m
    case Error => true
    case Gone => true
    case Unknown(item) => true
    case Progress(item) => item != x
    case Result(item, value) => item != x
  }

  ghost predicate Handled<V>(m: Message<V>, c: Connection, x: Case, completed: map<Case, (Connection, V)>) {
    !Unexpected(m, x) && (m.Result? ==> x in completed && completed[x] == (c, m.value))
  }

  class Dispatcher<V(!new)> {
    const cases: seq<Case>
    const workers: nat
    ghost const evaluate: Case -> V
    var active: map<Connection, Case>
    var completed: map<Case, (Connection, V)>
    var pending: nat
    var output: seq<(Case, V)>

    /** As many cases are out or buffered as there are workers, until the frozen order runs out. */
    ghost predicate Valid()
      reads this
    {
      && NoDup(cases) && workers > 0
      && Yielded() && pending == Least(|cases|, |output| + workers)
      && Holds(active, completed, Window(cases, |output|, pending))
      && Correct()
    }

    /** What was handed out is the start of the serial results. */
    ghost predicate Yielded()
      reads this
    {
      |output| <= |cases| && output == Serial(cases, evaluate)[..|output|]
    }

    ghost predicate Correct()
      reads this
    {
      forall x :: x in completed ==> completed[x].1 == evaluate(x)
    }

    /** Starts the pool: one process per worker, but no more than there are cases. */
    constructor (frozen: seq<Case>, pool: nat, ghost result: Case -> V)
      requires NoDup(frozen) && pool > 0
      ensures Valid() && cases == frozen && workers == pool && evaluate == result && output == []
    {
      cases, workers, evaluate := frozen, pool, result;
      active, completed, pending, output := map[], map[], 0, [];
      new;
      assert Window(cases, 0, 0) == {};
      var size := Least(workers, |cases|);
      while pending < size
        invariant pending <= size && completed == map[] && output == []
        invariant Holds(active, completed, Window(cases, 0, pending)) && forall c :: c in active ==> c < pending
      {
        NotInWindow(cases, 0, pending);
        Dispatched(active, completed, Window(cases, 0, pending), pending, cases[pending]);
        WindowMore(cases, 0, pending);
        active := active[pending := cases[pending]];
        pending := pending + 1;
      }
    }

    /** One wait: every ready connection is read once, and anything unexpected ends the evaluation. */
    method Receive(round: Round<V>) returns (raised: bool)
      requires Valid() && Honest(round, evaluate)
      modifies `active, `completed
      ensures raised <==> exists c :: c in old(active) && c in round && Unexpected(round[c], old(active)[c])
      ensures !raised ==> Valid() && (forall x :: x in old(completed) ==> x in completed)
      ensures !raised ==> forall c :: c in old(active) && c in round && round[c].Result? ==>
                old(active)[c] in completed && completed[old(active)[c]] == (c, round[c].value)
    {
      hide Holds, Window, Serial;
      ghost var window := Window(cases, |output|, pending);
      var left := active.Keys;
      while left != {}
        invariant left <= active.Keys && left <= old(active).Keys && Holds(active, completed, window) && Correct()
        invariant forall c :: c in active ==> c in old(active) && active[c] == old(active)[c]
        invariant forall x :: x in old(completed) ==> x in completed
        invariant forall c :: c in old(active) && c !in left && c in round ==> Handled(round[c], c, old(active)[c], completed)
        decreases left
      {
        var c :| c in left;
        left := left - {c};
        if c in round {
          if Unexpected(round[c], active[c]) { return true; }
          if round[c].Result? {
            Arrived(active, completed, window, c, round[c].value);
            completed := completed[active[c] := (c, round[c].value)];
            active := active - {c};
          }
        }
      }
      raised := false;
    }

    /** Hands out the awaited case and sends the next pending one to the worker that is free now. */
    method Yield()
      requires Valid() && |output| < |cases| && cases[|output|] in completed
      modifies this
      ensures Valid() && |output| == |old(output)| + 1
    {
      hide Holds, Window, Serial;
      ghost var window := Window(cases, |output|, pending);
      var x := cases[|output|];
      var (c, value) := completed[x];
      Taken(active, completed, window, x);
      WindowTail(cases, |output|, pending);
      SerialPrefix(cases, evaluate, |output|);
      completed := completed - {x};
      output := output + [(x, value)];
      if pending < |cases| {
        NotInWindow(cases, |output|, pending);
        Dispatched(active, completed, Window(cases, |output|, pending), c, cases[pending]);
        WindowMore(cases, |output|, pending);
        active := active[c := cases[pending]];
        pending := pending + 1;
      }
    }

    /** The awaited case is already with a worker or buffered, and no more cases are than workers. */
    lemma Bounded()
      requires Valid()
      ensures |active| + |completed| <= workers && |active| + |completed| == pending - |output|
      ensures |output| < |cases| ==> cases[|output|] in completed || Running(active, cases[|output|])
    {
      HeldCount(active, completed, Window(cases, |output|, pending));
      WindowSize(cases, |output|, pending);
      if |output| < |cases| { assert cases[|output|] in Window(cases, |output|, pending); }
    }

    /** The consumer's loop, for any rounds of messages; it waits when they run out. */
    method Run(rounds: seq<Round<V>>) returns (ending: Ending)
      requires Valid() && output == [] && forall r :: r in rounds ==> Honest(r, evaluate)
      modifies this
      ensures Yielded()
      ensures ending.Finished? ==> output == Serial(cases, evaluate)
      ensures ending.Waiting? ==> Valid() && |output| < |cases| && Running(active, cases[|output|])
    {
      var n := 0;
      while |output| < |cases|
        invariant Valid() && n <= |rounds|
        decreases |cases| - |output|
      {
        ghost var before := output;
        while cases[|output|] !in completed
          invariant Valid() && n <= |rounds| && output == before
          decreases |rounds| - n
        {
          if n == |rounds| { Bounded(); return Waiting; }
          var raised := Receive(rounds[n]);
          n := n + 1;
          if raised { return Raised; }
        }
        Yield();
      }
      ending := Finished;
      assert Serial(cases, evaluate)[..|cases|] == Serial(cases, evaluate);
    }
  }

  lemma NotInWindow(cases: seq<Case>, lo: nat, hi: nat)
    requires NoDup(cases) && lo <= hi < |cases|
    ensures cases[hi] !in Window(cases, lo, hi)
  {
    forall i | lo <= i < hi ensures cases[i] != cases[hi] { NoDupIndex(cases, i, hi); }
  }

  lemma WindowTail(cases: seq<Case>, lo: nat, hi: nat)
    requires NoDup(cases) && lo < hi <= |cases|
    ensures Window(cases, lo, hi) - {cases[lo]} == Window(cases, lo + 1, hi)
  {
    forall i | lo < i < hi ensures cases[i] != cases[lo] { NoDupIndex(cases, lo, i); }
  }

  lemma WindowMore(cases: seq<Case>, lo: nat, hi: nat)
    requires lo <= hi < |cases|
    ensures Window(cases, lo, hi + 1) == Window(cases, lo, hi) + {cases[hi]}
  {
  }

  lemma SerialPrefix<V>(cases: seq<Case>, evaluate: Case -> V, n: nat)
    requires n < |cases|
    ensures Serial(cases, evaluate)[..n + 1] == Serial(cases, evaluate)[..n] + [(cases[n], evaluate(cases[n]))]
  {
    hide Serial;
    TakeOneMore(Serial(cases, evaluate), n);
  }

  /** For every pool and every interleaving of worker messages, what is handed out is a start of the
      serial results, and all of them unless a worker failed or is still busy. */
  method CaseResults<V(!new)>(cases: seq<Case>, workers: nat, rounds: seq<Round<V>>, evaluate: Case -> V)
    returns (output: seq<(Case, V)>, ending: Ending)
    requires NoDup(cases) && workers > 0 && forall r :: r in rounds ==> Honest(r, evaluate)
    ensures output <= Serial(cases, evaluate)
    ensures ending.Finished? ==> output == Serial(cases, evaluate)
    ensures workers == 1 || cases == [] ==> ending.Finished?
  {
    output := [];
    if workers == 1 {
      for i := 0 to |cases|
        invariant output == Serial(cases[..i], evaluate)
      {
        assert cases[..i + 1][..i] == cases[..i];
        output := output + [(cases[i], evaluate(cases[i]))];
      }
      assert cases[..|cases|] == cases;
      return output, Finished;
    }
    if cases == [] { return output, Finished; }
    var d := new Dispatcher(cases, workers, evaluate);
    ending := d.Run(rounds);
    output := d.output;
  }
}
