/** Detached copies of object graphs: lists and dictionaries are cloned once each, cycles and aliases
    are kept, and a tuple is reused exactly when nothing mutable can be reached through it. */
module GraphCopy {
  type Ref = nat

  /** `items` of a dictionary lists its values and keys in the order they are copied: value before key. */
  datatype Kind = ListKind | DictKind
  datatype Node = Atom(value: int) | Container(kind: Kind, items: seq<Ref>) | Tuple(items: seq<Ref>)

  type Heap = map<Ref, Node>
  type Memo = map<Ref, Ref>

  function Items(n: Node): seq<Ref> {
    if n.Atom? then [] else n.items
  }

  /** All references are objects, and tuples only contain themselves through a list or dictionary:
      `rank` orders the tuples by nesting. */
  ghost predicate Graph(h: Heap, rank: map<Ref, nat>) {
    && rank.Keys == h.Keys
    && (forall r, i {:trigger Items(h[r])[i]} :: r in h && 0 <= i < |Items(h[r])| ==> Items(h[r])[i] in h)
    && (forall r :: r in h && h[r].Container? ==> rank[r] == 0)
    && forall r, i {:trigger Items(h[r])[i]} :: r in h && h[r].Tuple? && 0 <= i < |Items(h[r])| && Items(h[r])[i] in h ==>
         rank[Items(h[r])[i]] < rank[r]
  }

  /** Only atoms and tuples of such: nothing mutable is reachable. */
  ghost predicate Pure(h: Heap, rank: map<Ref, nat>, r: Ref)
    requires Graph(h, rank) && r in h
    decreases rank[r]
  {
    match h[r]
    case Atom(v) => true
    case Container(k, items) => false
    case Tuple(items) => forall i {:trigger items[i]} :: 0 <= i < |items| ==> Items(h[r])[i] in h && Pure(h, rank, Items(h[r])[i])
  }

  /** What a source object becomes: itself if pure, otherwise its memoized clone. */
  ghost predicate HasImage(h: Heap, rank: map<Ref, nat>, memo: Memo, r: Ref)
    requires Graph(h, rank)
  {
    r in h && (Pure(h, rank, r) || r in memo)
  }

  ghost function Image(h: Heap, rank: map<Ref, nat>, memo: Memo, r: Ref): Ref
    requires Graph(h, rank) && HasImage(h, rank, memo, r)
  {
    if Pure(h, rank, r) then r else memo[r]
  }

  /** The first `n` items of the clone are the images of the source's. */
  ghost predicate Mirrors(h: Heap, rank: map<Ref, nat>, memo: Memo, source: Node, copy: Node, n: nat)
    requires Graph(h, rank)
  {
    && (source.Container? <==> copy.Container?) && (source.Tuple? <==> copy.Tuple?) && (source.Container? ==> copy.kind == source.kind)
    && |Items(copy)| == n <= |Items(source)|
    && forall i {:trigger Items(copy)[i]} :: 0 <= i < n ==>
         HasImage(h, rank, memo, Items(source)[i]) && Items(copy)[i] == Image(h, rank, memo, Items(source)[i])
  }

  /** `open` are the containers still being filled; everything else in the memo is complete. */
  ghost predicate Consistent(h: Heap, rank: map<Ref, nat>, now: Heap, memo: Memo, open: set<Ref>) {
    && Graph(h, rank)
    && (forall r :: r in h ==> r in now && now[r] == h[r])
    && (forall r {:trigger memo[r]} :: r in memo ==> r in h && !Pure(h, rank, r) && memo[r] in now && memo[r] !in h)
    && (forall r, q {:trigger memo[r], memo[q]} :: r in memo && q in memo && r != q ==> memo[r] != memo[q])
    && open <= memo.Keys
    && forall r {:trigger memo[r]} :: r in memo && r !in open ==> Mirrors(h, rank, memo, h[r], now[memo[r]], |Items(h[r])|)
  }

  /** Memo entries and the clones under construction stay as they are. */
  ghost predicate Extends(now: Heap, memo: Memo, later: Heap, more: Memo, open: set<Ref>) {
    && (forall r :: r in memo ==> r in more && more[r] == memo[r])
    && (forall r :: r in now ==> r in later)
    && forall r {:trigger memo[r]} :: r in open && r in memo && memo[r] in now ==> memo[r] in later && later[memo[r]] == now[memo[r]]
  }

  ghost function Containers(h: Heap): set<Ref> {
    set r | r in h && h[r].Container?
  }

  // -- small facts -----------------------------------------------------------------------------

  lemma ImageStays(h: Heap, rank: map<Ref, nat>, memo: Memo, more: Memo, r: Ref)
    requires Graph(h, rank) && HasImage(h, rank, memo, r) && forall q :: q in memo ==> q in more && more[q] == memo[q]
    ensures HasImage(h, rank, more, r) && Image(h, rank, more, r) == Image(h, rank, memo, r)
  {
  }

  lemma MirrorsStay(h: Heap, rank: map<Ref, nat>, memo: Memo, more: Memo, source: Node, copy: Node, n: nat)
    requires Graph(h, rank) && Mirrors(h, rank, memo, source, copy, n) && forall q :: q in memo ==> q in more && more[q] == memo[q]
    ensures Mirrors(h, rank, more, source, copy, n)
  {
    forall i | 0 <= i < n
      ensures HasImage(h, rank, more, Items(source)[i]) && Items(copy)[i] == Image(h, rank, more, Items(source)[i])
    {
      var c := Items(copy)[i];
      assert HasImage(h, rank, memo, Items(source)[i]) && c == Image(h, rank, memo, Items(source)[i]);
      ImageStays(h, rank, memo, more, Items(source)[i]);
    }
  }

  /** Distinct objects have distinct images. */
  lemma ImageInjective(h: Heap, rank: map<Ref, nat>, now: Heap, memo: Memo, open: set<Ref>, a: Ref, b: Ref)
    requires Consistent(h, rank, now, memo, open) && HasImage(h, rank, memo, a) && HasImage(h, rank, memo, b)
    requires Image(h, rank, memo, a) == Image(h, rank, memo, b)
    ensures a == b
  {
    if a in memo && !Pure(h, rank, a) { assert memo[a] !in h; }
    if b in memo && !Pure(h, rank, b) { assert memo[b] !in h; }
  }

  /** A new clone enters the memo. */
  lemma Memoize(h: Heap, rank: map<Ref, nat>, now: Heap, memo: Memo, open: set<Ref>, r: Ref, clone: Ref, node: Node, opens: bool)
    requires Consistent(h, rank, now, memo, open) && r in h && !Pure(h, rank, r) && r !in memo && clone !in now
    requires opens || Mirrors(h, rank, memo, h[r], node, |Items(h[r])|)
    ensures Consistent(h, rank, now[clone := node], memo[r := clone], if opens then open + {r} else open)
    ensures Extends(now, memo, now[clone := node], memo[r := clone], open)
  {
    hide Mirrors, Pure, Graph, Items;
    var later, more := now[clone := node], memo[r := clone];
    var still := if opens then open + {r} else open;
    assert forall q :: q in memo ==> q in more && more[q] == memo[q];
    forall q | q in more && q !in still ensures Mirrors(h, rank, more, h[q], later[more[q]], |Items(h[q])|) {
      if q != r {
        assert Mirrors(h, rank, memo, h[q], now[memo[q]], |Items(h[q])|);
        MirrorsStay(h, rank, memo, more, h[q], now[memo[q]], |Items(h[q])|);
      } else {
        MirrorsStay(h, rank, memo, more, h[r], node, |Items(h[r])|);
      }
    }
  }

  lemma Append(h: Heap, rank: map<Ref, nat>, now: Heap, memo: Memo, open: set<Ref>, r: Ref, c: Ref, n: nat)
    requires Consistent(h, rank, now, memo, open) && r in open && r in memo && n < |Items(h[r])|
    requires Mirrors(h, rank, memo, h[r], now[memo[r]], n) && h[r].Container?
    requires HasImage(h, rank, memo, Items(h[r])[n]) && c == Image(h, rank, memo, Items(h[r])[n])
    ensures var later := now[memo[r] := Container(h[r].kind, Items(now[memo[r]]) + [c])];
            Consistent(h, rank, later, memo, open) && Mirrors(h, rank, memo, h[r], later[memo[r]], n + 1)
  {
    var before, later := Items(now[memo[r]]), now[memo[r] := Container(h[r].kind, Items(now[memo[r]]) + [c])];
    var after := Items(later[memo[r]]);
    assert after == before + [c];
    forall i | 0 <= i < n + 1 ensures HasImage(h, rank, memo, Items(h[r])[i]) && after[i] == Image(h, rank, memo, Items(h[r])[i]) {
      if i < n { var x := before[i]; }
    }
    forall q | q in memo && q !in open ensures Mirrors(h, rank, memo, h[q], later[memo[q]], |Items(h[q])|) {
      assert memo[q] != memo[r];
    }
  }

  lemma Close(h: Heap, rank: map<Ref, nat>, now: Heap, memo: Memo, open: set<Ref>, r: Ref)
    requires Consistent(h, rank, now, memo, open + {r}) && r in memo && Mirrors(h, rank, memo, h[r], now[memo[r]], |Items(h[r])|)
    ensures Consistent(h, rank, now, memo, open)
  {
  }

  lemma Chain(now: Heap, memo: Memo, middle: Heap, more: Memo, later: Heap, most: Memo, open: set<Ref>)
    requires Extends(now, memo, middle, more, open) && Extends(middle, more, later, most, open)
    ensures Extends(now, memo, later, most, open)
  {
    forall r | r in open && r in memo && memo[r] in now ensures memo[r] in later && later[memo[r]] == now[memo[r]] {
      assert more[r] == memo[r];
    }
  }

  /** A tuple equals the sequence of its items' images exactly when it is pure. */
  lemma TupleReuse(h: Heap, rank: map<Ref, nat>, now: Heap, memo: Memo, open: set<Ref>, r: Ref, children: seq<Ref>)
    requires Consistent(h, rank, now, memo, open) && r in h && h[r].Tuple? && |children| == |h[r].items|
    requires forall i {:trigger children[i]} :: 0 <= i < |children| ==>
               HasImage(h, rank, memo, Items(h[r])[i]) && children[i] == Image(h, rank, memo, Items(h[r])[i])
    ensures children == h[r].items <==> Pure(h, rank, r)
  {
    if Pure(h, rank, r) {
      forall i | 0 <= i < |children| ensures children[i] == h[r].items[i] { assert Pure(h, rank, Items(h[r])[i]); }
    }
    if children == h[r].items {
      forall i | 0 <= i < |children| ensures Items(h[r])[i] in h && Pure(h, rank, Items(h[r])[i]) {
        assert children[i] == Image(h, rank, memo, Items(h[r])[i]);
        OwnImage(h, rank, now, memo, open, Items(h[r])[i]);
      }
    }
  }

  lemma OwnImage(h: Heap, rank: map<Ref, nat>, now: Heap, memo: Memo, open: set<Ref>, r: Ref)
    requires Consistent(h, rank, now, memo, open) && HasImage(h, rank, memo, r)
    ensures Image(h, rank, memo, r) == r <==> Pure(h, rank, r)
  {
    if r in memo { assert memo[r] !in h; }
  }

  // -- the recursive copy ----------------------------------------------------------------------

  predicate AllAtoms(h: Heap, items: seq<Ref>) {
    forall i :: 0 <= i < |items| ==> items[i] in h && h[items[i]].Atom?
  }

  /** A row of atoms is its own image. */
  lemma AtomRow(h: Heap, rank: map<Ref, nat>, now: Heap, memo: Memo, open: set<Ref>, r: Ref)
    requires Consistent(h, rank, now, memo, open) && r in h && !h[r].Atom?
    ensures AllAtoms(now, h[r].items) ==>
              && (h[r].Container? ==> Mirrors(h, rank, memo, h[r], h[r], |Items(h[r])|))
              && (h[r].Tuple? ==> Pure(h, rank, r))
  {
    if AllAtoms(now, h[r].items) {
      forall i | 0 <= i < |Items(h[r])| ensures Items(h[r])[i] in h && Pure(h, rank, Items(h[r])[i]) {}
    }
  }

  /** The images collected so far. */
  ghost predicate Collected(h: Heap, rank: map<Ref, nat>, memo: Memo, items: seq<Ref>, children: seq<Ref>)
    requires Graph(h, rank)
  {
    |children| <= |items| && forall i {:trigger children[i]} :: 0 <= i < |children| ==>
      HasImage(h, rank, memo, items[i]) && children[i] == Image(h, rank, memo, items[i])
  }

  lemma CollectedStays(h: Heap, rank: map<Ref, nat>, memo: Memo, more: Memo, items: seq<Ref>, children: seq<Ref>)
    requires Graph(h, rank) && Collected(h, rank, memo, items, children) && forall q :: q in memo ==> q in more && more[q] == memo[q]
    ensures Collected(h, rank, more, items, children)
  {
    forall i | 0 <= i < |children| ensures HasImage(h, rank, more, items[i]) && children[i] == Image(h, rank, more, items[i]) {
      var c := children[i];
      assert HasImage(h, rank, memo, items[i]) && c == Image(h, rank, memo, items[i]);
      ImageStays(h, rank, memo, more, items[i]);
    }
  }

  lemma ExtendsItself(now: Heap, memo: Memo, open: set<Ref>)
    ensures Extends(now, memo, now, memo, open)
  {
  }

  lemma Nested(h: Heap, rank: map<Ref, nat>, r: Ref, i: nat)
    requires Graph(h, rank) && r in h && i < |Items(h[r])|
    ensures Items(h[r])[i] in h && (h[r].Tuple? ==> rank[Items(h[r])[i]] < rank[r])
  {
  }

  /** Containers still to be cloned. */
  ghost function Todo(h: Heap, memo: Memo): nat {
    |Containers(h) - memo.Keys|
  }

  lemma FewerTodo(h: Heap, memo: Memo, more: Memo)
    requires forall q :: q in memo ==> q in more
    ensures Todo(h, more) <= Todo(h, memo)
    ensures (exists r :: r in Containers(h) && r in more && r !in memo) ==> Todo(h, more) < Todo(h, memo)
  {
    var a, b := Containers(h) - more.Keys, Containers(h) - memo.Keys;
    Smaller(a, b);
    if r :| r in Containers(h) && r in more && r !in memo {
      Smaller(a, b - {r});
    }
  }

  lemma {:induction false} Smaller(a: set<Ref>, b: set<Ref>)
    requires a <= b
    ensures |a| <= |b|
  {
    if a != {} {
      var x :| x in a;
      Smaller(a - {x}, b - {x});
    }
  }

  class Copier {
    var heap: Heap
    var memo: Memo
    var next: Ref
    ghost const source: Heap
    ghost const rank: map<Ref, nat>

    ghost predicate Copying(open: set<Ref>)
      reads this
    {
      Consistent(source, rank, heap, memo, open) && forall r :: r in heap ==> r < next
    }

    constructor (h: Heap, bound: Ref, ghost nesting: map<Ref, nat>)
      requires Graph(h, nesting) && forall r :: r in h ==> r < bound
      ensures Copying({}) && source == h && rank == nesting && heap == h && memo == map[]
    {
      heap, memo, next, source, rank := h, map[], bound, h, nesting;
    }

    /** `_clone` */
    method Clone(r: Ref, ghost open: set<Ref>) returns (c: Ref)
      requires Copying(open) && r in source
      modifies this
      ensures Copying(open) && HasImage(source, rank, memo, r) && c == Image(source, rank, memo, r)
      ensures Extends(old(heap), old(memo), heap, memo, open)
      decreases Todo(source, memo), rank[r], 2
    {
      Found(r, open);
      ExtendsItself(heap, memo, open);
      if r in memo { return memo[r]; }
      match heap[r]
      case Atom(v) => c := r;
      case Container(k, items) => c := CloneContainer(r, k, items, open);
      case Tuple(items) => c := CloneTuple(r, items, open);
    }

    lemma Found(r: Ref, open: set<Ref>)
      requires Copying(open) && r in source
      ensures r in heap && heap[r] == source[r] && Graph(source, rank)
      ensures r in memo ==> HasImage(source, rank, memo, r) && Image(source, rank, memo, r) == memo[r]
      ensures source[r].Atom? ==> HasImage(source, rank, memo, r) && Image(source, rank, memo, r) == r
    {
    }

    method Allocate(node: Node) returns (c: Ref)
      requires forall r :: r in heap ==> r < next
      modifies `heap, `next
      ensures c !in old(heap) && heap == old(heap)[c := node] && forall r :: r in heap ==> r < next
    {
      c := next;
      next := next + 1;
      heap := heap[c := node];
    }

    lemma Opened(open: set<Ref>)
      requires Copying(open)
      ensures Consistent(source, rank, heap, memo, open) && Graph(source, rank) && forall r :: r in heap ==> r < next
    {
    }

    lemma Closed(open: set<Ref>)
      requires Consistent(source, rank, heap, memo, open) && forall r :: r in heap ==> r < next
      ensures Copying(open)
    {
    }

    method CloneContainer(r: Ref, kind: Kind, items: seq<Ref>, ghost open: set<Ref>) returns (c: Ref)
      requires Copying(open) && r in source && source[r] == Container(kind, items) && r !in memo
      modifies this
      ensures Copying(open) && HasImage(source, rank, memo, r) && c == Image(source, rank, memo, r)
      ensures Extends(old(heap), old(memo), heap, memo, open)
      decreases Todo(source, memo), rank[r], 0
    {
      NotPure(source, rank, r);
      AtomRow(source, rank, heap, memo, open, r);
      hide *;
      Opened(open);
      ghost var before, known := heap, memo;
      if AllAtoms(heap, items) {
        c := Allocate(Container(kind, items));
        Memoize(source, rank, before, memo, open, r, c, Container(kind, items), false);
        memo := memo[r := c];
        Closed(open);
        Found(r, open);
      } else {
        c := Allocate(Container(kind, []));
        Memoize(source, rank, before, memo, open, r, c, Container(kind, []), true);
        memo := memo[r := c];
        Closed(open + {r});
        OneFewer(source, known, r, c);
        NotOpen(source, rank, before, known, open, r);
        ghost var middle, more := heap, memo;
        Fill(r, kind, items, c, open);
        Chain(before, known, middle, more, heap, memo, open);
      }
    }

    /** An item is used as it is when it is an atom. */
    method CopyItem(x: Ref, ghost open: set<Ref>) returns (c: Ref)
      requires Copying(open) && x in source
      modifies this
      ensures Copying(open) && HasImage(source, rank, memo, x) && c == Image(source, rank, memo, x)
      ensures Extends(old(heap), old(memo), heap, memo, open) && Todo(source, memo) <= old(Todo(source, memo))
      decreases Todo(source, memo), rank[x], 3
    {
      hide *;
      Found(x, open);
      ExtendsItself(heap, memo, open);
      if heap[x].Atom? { return x; }
      ghost var now, known := heap, memo;
      c := Clone(x, open);
      KeptMemo(now, known, heap, memo, open);
      FewerTodo(source, known, memo);
    }

    /** Fills the clone item by item. */
    method Fill(r: Ref, kind: Kind, items: seq<Ref>, c: Ref, ghost open: set<Ref>)
      requires Copying(open + {r}) && r in source && source[r] == Container(kind, items) && r in memo && memo[r] == c && r !in open
      requires c in heap && heap[c] == Container(kind, [])
      modifies this
      ensures Copying(open) && HasImage(source, rank, memo, r) && c == Image(source, rank, memo, r)
      ensures Extends(old(heap), old(memo), heap, memo, open)
      decreases Todo(source, memo)
    {
      hide *;
      Opened(open + {r});
      StartsEmpty(source, rank, memo, source[r], heap[c]);
      ExtendsItself(heap, memo, open);
      ItemsOf(source[r]);
      for i := 0 to |items|
        invariant Copying(open + {r}) && r in memo && memo[r] == c && c in heap && Graph(source, rank)
        invariant Mirrors(source, rank, memo, source[r], heap[c], i)
        invariant Extends(old(heap), old(memo), heap, memo, open) && Todo(source, memo) <= old(Todo(source, memo))
      {
        ghost var now, known := heap, memo;
        Nested(source, rank, r, i);
        var child := CopyItem(items[i], open + {r});
        Opened(open + {r});
        FillOne(source, rank, old(heap), old(memo), now, known, heap, memo, open, r, child, i);
        heap := heap[c := Container(kind, heap[c].items + [child])];
        Closed(open + {r});
      }
      Opened(open + {r});
      Close(source, rank, heap, memo, open, r);
      Closed(open);
      Found(r, open);
    }

    /** The images of a tuple's items. */
    method CopyItems(r: Ref, items: seq<Ref>, ghost open: set<Ref>) returns (children: seq<Ref>)
      requires Copying(open) && r in source && source[r] == Tuple(items)
      modifies this
      ensures Copying(open) && |children| == |items| && Collected(source, rank, memo, items, children)
      ensures Extends(old(heap), old(memo), heap, memo, open)
      decreases Todo(source, memo), rank[r], 0
    {
      hide *;
      Opened(open);
      ItemsOf(source[r]);
      ExtendsItself(heap, memo, open);
      children := [];
      NothingCollected(source, rank, memo, items);
      for i := 0 to |items|
        invariant Copying(open) && Graph(source, rank) && |children| == i && Collected(source, rank, memo, items, children)
        invariant Extends(old(heap), old(memo), heap, memo, open) && Todo(source, memo) <= old(Todo(source, memo))
      {
        ghost var now, known := heap, memo;
        Nested(source, rank, r, i);
        var child := CopyItem(items[i], open);
        KeptMemo(now, known, heap, memo, open);
        Chain(old(heap), old(memo), now, known, heap, memo, open);
        CollectedStays(source, rank, known, memo, items, children);
        CollectOne(source, rank, memo, items, children, child);
        children := children + [child];
      }
    }

    method CloneTuple(r: Ref, items: seq<Ref>, ghost open: set<Ref>) returns (c: Ref)
      requires Copying(open) && r in source && source[r] == Tuple(items) && r !in memo
      modifies this
      ensures Copying(open) && HasImage(source, rank, memo, r) && c == Image(source, rank, memo, r)
      ensures Extends(old(heap), old(memo), heap, memo, open)
      decreases Todo(source, memo), rank[r], 1
    {
      hide *;
      Opened(open);
      AtomRow(source, rank, heap, memo, open, r);
      PureImage(source, rank, memo, r);
      ExtendsItself(heap, memo, open);
      if AllAtoms(heap, items) { return r; }
      var children := CopyItems(r, items, open);
      Opened(open);
      CollectedAll(source, rank, heap, memo, open, r, children);
      PureImage(source, rank, memo, r);
      Found(r, open);
      if r in memo {
        c := memo[r];
      } else if children == items {
        c := r;
      } else {
        ghost var now, known := heap, memo;
        c := Allocate(Tuple(children));
        Memoize(source, rank, now, known, open, r, c, Tuple(children), false);
        memo := memo[r := c];
        Chain(old(heap), old(memo), now, known, heap, memo, open);
        Closed(open);
        Found(r, open);
      }
    }
  }

  lemma NotPure(h: Heap, rank: map<Ref, nat>, r: Ref)
    requires Graph(h, rank) && r in h && h[r].Container?
    ensures !Pure(h, rank, r)
  {
  }

  lemma OneFewer(h: Heap, memo: Memo, r: Ref, c: Ref)
    requires r in h && h[r].Container? && r !in memo
    ensures Todo(h, memo[r := c]) < Todo(h, memo)
  {
    assert r in Containers(h);
    FewerTodo(h, memo, memo[r := c]);
  }

  lemma NotOpen(h: Heap, rank: map<Ref, nat>, now: Heap, memo: Memo, open: set<Ref>, r: Ref)
    requires Consistent(h, rank, now, memo, open) && r !in memo
    ensures r !in open
  {
  }

  lemma StartsEmpty(h: Heap, rank: map<Ref, nat>, memo: Memo, source: Node, copy: Node)
    requires Graph(h, rank) && source.Container? && copy == Container(source.kind, [])
    ensures Mirrors(h, rank, memo, source, copy, 0)
  {
  }

  lemma ItemsOf(n: Node)
    ensures !n.Atom? ==> Items(n) == n.items
  {
  }

  lemma Kept(now: Heap, memo: Memo, later: Heap, more: Memo, open: set<Ref>, r: Ref)
    requires Extends(now, memo, later, more, open + {r}) && r in memo && memo[r] in now
    ensures (forall q :: q in memo ==> q in more && more[q] == memo[q]) && memo[r] in later && later[memo[r]] == now[memo[r]]
    ensures Extends(now, memo, later, more, open)
  {
  }

  lemma KeptMemo(now: Heap, memo: Memo, later: Heap, more: Memo, open: set<Ref>)
    requires Extends(now, memo, later, more, open)
    ensures forall q :: q in memo ==> q in more && more[q] == memo[q]
  {
  }

  /** Filling one clone leaves the other open ones alone. */
  lemma OnlyClone(h: Heap, rank: map<Ref, nat>, now: Heap, memo: Memo, open: set<Ref>, r: Ref, node: Node)
    requires Consistent(h, rank, now, memo, open + {r}) && r in memo && r !in open
    ensures Extends(now, memo, now[memo[r] := node], memo, open)
  {
    forall q | q in open && q in memo && memo[q] in now ensures now[memo[r] := node][memo[q]] == now[memo[q]] {
      assert memo[q] != memo[r];
    }
  }

  /** One more item of a clone under construction. */
  lemma FillOne(h: Heap, rank: map<Ref, nat>, first: Heap, given: Memo, before: Heap, known: Memo,
                now: Heap, memo: Memo, open: set<Ref>, r: Ref, child: Ref, n: nat)
    requires Extends(first, given, before, known, open) && Extends(before, known, now, memo, open + {r})
    requires Graph(h, rank) && Consistent(h, rank, now, memo, open + {r})
    requires r in h && h[r].Container? && r !in open && n < |Items(h[r])|
    requires r in known && known[r] in before && Mirrors(h, rank, known, h[r], before[known[r]], n)
    requires HasImage(h, rank, memo, Items(h[r])[n]) && child == Image(h, rank, memo, Items(h[r])[n])
    ensures r in memo && memo[r] == known[r] && memo[r] in now && now[memo[r]].Container?
    ensures var later := now[memo[r] := Container(h[r].kind, now[memo[r]].items + [child])];
            && Consistent(h, rank, later, memo, open + {r}) && Mirrors(h, rank, memo, h[r], later[memo[r]], n + 1)
            && Extends(first, given, later, memo, open)
  {
    hide Consistent, Extends, Mirrors, HasImage, Image, Graph;
    Kept(before, known, now, memo, open, r);
    MirrorsStay(h, rank, known, memo, h[r], now[memo[r]], n);
    SameKind(h, rank, memo, h[r], now[memo[r]], n);
    Append(h, rank, now, memo, open + {r}, r, child, n);
    var node := Container(h[r].kind, now[memo[r]].items + [child]);
    OnlyClone(h, rank, now, memo, open, r, node);
    Chain(first, given, before, known, now, memo, open);
    Chain(first, given, now, memo, now[memo[r] := node], memo, open);
  }

  lemma SameKind(h: Heap, rank: map<Ref, nat>, memo: Memo, source: Node, copy: Node, n: nat)
    requires Graph(h, rank) && Mirrors(h, rank, memo, source, copy, n) && source.Container?
    ensures copy.Container? && copy.kind == source.kind
  {
  }

  lemma PureImage(h: Heap, rank: map<Ref, nat>, memo: Memo, r: Ref)
    requires Graph(h, rank) && r in h
    ensures Pure(h, rank, r) ==> HasImage(h, rank, memo, r) && Image(h, rank, memo, r) == r
  {
  }

  lemma NothingCollected(h: Heap, rank: map<Ref, nat>, memo: Memo, items: seq<Ref>)
    requires Graph(h, rank)
    ensures Collected(h, rank, memo, items, [])
  {
  }

  lemma CollectOne(h: Heap, rank: map<Ref, nat>, memo: Memo, items: seq<Ref>, children: seq<Ref>, child: Ref)
    requires Graph(h, rank) && Collected(h, rank, memo, items, children) && |children| < |items|
    requires HasImage(h, rank, memo, items[|children|]) && child == Image(h, rank, memo, items[|children|])
    ensures Collected(h, rank, memo, items, children + [child])
  {
    var more := children + [child];
    forall i | 0 <= i < |more| ensures HasImage(h, rank, memo, items[i]) && more[i] == Image(h, rank, memo, items[i]) {
      if i < |children| { var c := children[i]; }
    }
  }

  lemma CollectedAll(h: Heap, rank: map<Ref, nat>, now: Heap, memo: Memo, open: set<Ref>, r: Ref, children: seq<Ref>)
    requires Consistent(h, rank, now, memo, open) && r in h && h[r].Tuple? && |children| == |h[r].items|
    requires Collected(h, rank, memo, h[r].items, children)
    ensures children == h[r].items <==> Pure(h, rank, r)
    ensures Mirrors(h, rank, memo, h[r], Tuple(children), |Items(h[r])|)
  {
    forall i | 0 <= i < |children| ensures HasImage(h, rank, memo, Items(h[r])[i]) && children[i] == Image(h, rank, memo, Items(h[r])[i]) {
      var x := children[i];
      assert HasImage(h, rank, memo, h[r].items[i]) && x == Image(h, rank, memo, h[r].items[i]);
    }
    TupleReuse(h, rank, now, memo, open, r, children);
  }

  // -- what a detached copy is -----------------------------------------------------------------

  datatype Found = Missing | At(ref: Ref)

  /** The object an index path leads to. */
  ghost function Follow(h: Heap, r: Ref, path: seq<nat>): (f: Found)
    ensures f.At? ==> f.ref in h
    decreases |path|
  {
    if r !in h then Missing
    else if path == [] then At(r)
    else if path[0] < |Items(h[r])| then Follow(h, Items(h[r])[path[0]], path[1..])
    else Missing
  }

  ghost predicate SameShape(a: Node, b: Node) {
    && (a.Atom? ==> a == b)
    && (a.Container? <==> b.Container?) && (a.Tuple? <==> b.Tuple?) && (a.Container? ==> a.kind == b.kind)
    && |Items(a)| == |Items(b)|
  }

  /** `image` copies its whole domain item by item, keeps distinct objects distinct, shares exactly the
      objects through which nothing mutable can be reached, and the source is as it was. */
  ghost predicate Detached(h: Heap, rank: map<Ref, nat>, later: Heap, image: Memo)
    requires Graph(h, rank)
  {
    && (forall x :: x in h ==> x in later && later[x] == h[x])
    && (forall x {:trigger image[x]} :: x in image ==> x in h && image[x] in later && SameShape(h[x], later[image[x]]))
    && (forall x, i {:trigger Items(h[x])[i]} :: x in image && 0 <= i < |Items(h[x])| ==>
          Items(h[x])[i] in image && Items(later[image[x]])[i] == image[Items(h[x])[i]])
    && (forall x, y {:trigger image[x], image[y]} :: x in image && y in image && image[x] == image[y] ==> x == y)
    && forall x {:trigger image[x]} :: x in image ==>
         if Pure(h, rank, x) then image[x] == x else image[x] !in h
  }

  ghost function ImageMap(h: Heap, rank: map<Ref, nat>, memo: Memo): (image: Memo)
    requires Graph(h, rank)
  {
    map r | r in h && HasImage(h, rank, memo, r) :: Image(h, rank, memo, r)
  }

  lemma ImagesDetached(h: Heap, rank: map<Ref, nat>, now: Heap, memo: Memo)
    requires Graph(h, rank) && Consistent(h, rank, now, memo, {})
    ensures Detached(h, rank, now, ImageMap(h, rank, memo))
  {
    hide Graph;
    var image := ImageMap(h, rank, memo);
    forall x | x in image ensures image[x] in now && SameShape(h[x], now[image[x]])
      ensures if Pure(h, rank, x) then image[x] == x else image[x] !in h
    {
      if !Pure(h, rank, x) { assert Mirrors(h, rank, memo, h[x], now[memo[x]], |Items(h[x])|); NoAtom(h, rank, x); }
    }
    forall x, i | x in image && 0 <= i < |Items(h[x])|
      ensures Items(h[x])[i] in image && Items(now[image[x]])[i] == image[Items(h[x])[i]]
    {
      Nested(h, rank, x, i);
      if Pure(h, rank, x) {
        PureItem(h, rank, x, i);
      } else {
        var copy := now[memo[x]];
        assert Mirrors(h, rank, memo, h[x], copy, |Items(h[x])|);
        var c := Items(copy)[i];
      }
    }
    forall x, y | x in image && y in image && image[x] == image[y] ensures x == y {
      ImageInjective(h, rank, now, memo, {}, x, y);
    }
  }

  lemma NoAtom(h: Heap, rank: map<Ref, nat>, x: Ref)
    requires Graph(h, rank) && x in h && !Pure(h, rank, x)
    ensures !h[x].Atom?
  {
  }

  lemma PureItem(h: Heap, rank: map<Ref, nat>, x: Ref, i: nat)
    requires Graph(h, rank) && x in h && Pure(h, rank, x) && i < |Items(h[x])|
    ensures Items(h[x])[i] in h && Pure(h, rank, Items(h[x])[i])
  {
    var item := h[x].items[i];
  }

  /** `c` is the image of `root` under some such copy. */
  ghost predicate IsCopy(h: Heap, rank: map<Ref, nat>, later: Heap, root: Ref, c: Ref)
    requires Graph(h, rank)
  {
    exists image: Memo :: Detached(h, rank, later, image) && root in image && c == image[root]
  }

  /** `detached_copy`: terminates on every graph, and the result is the image of the root. */
  method DetachedCopy(h: Heap, bound: Ref, ghost rank: map<Ref, nat>, root: Ref) returns (later: Heap, c: Ref)
    requires Graph(h, rank) && root in h && forall r :: r in h ==> r < bound
    ensures IsCopy(h, rank, later, root, c)
  {
    var copier := new Copier(h, bound, rank);
    c := copier.Clone(root, {});
    later := copier.heap;
    ghost var image := ImageMap(h, rank, copier.memo);
    ImagesDetached(h, rank, later, copier.memo);
    assert Detached(h, rank, later, image) && root in image && c == image[root];
  }

  ghost predicate LeadsToContainer(h: Heap, r: Ref, path: seq<nat>) {
    Follow(h, r, path).At? && h[Follow(h, r, path).ref].Container?
  }

  /** What is shared is exactly that from which no path reaches a list or dictionary. */
  lemma {:induction false} PureIsUnreachable(h: Heap, rank: map<Ref, nat>, r: Ref)
    requires Graph(h, rank) && r in h
    ensures Pure(h, rank, r) <==> forall path :: !LeadsToContainer(h, r, path)
    decreases rank[r]
  {
    if h[r].Container? {
      assert LeadsToContainer(h, r, []);
    } else if Pure(h, rank, r) {
      forall path ensures !LeadsToContainer(h, r, path) {
        if path != [] && path[0] < |Items(h[r])| {
          PureItem(h, rank, r, path[0]);
          Nested(h, rank, r, path[0]);
          PureIsUnreachable(h, rank, Items(h[r])[path[0]]);
          assert !LeadsToContainer(h, Items(h[r])[path[0]], path[1..]);
        }
      }
    } else {
      var i :| 0 <= i < |h[r].items| && !(Items(h[r])[i] in h && Pure(h, rank, Items(h[r])[i]));
      Nested(h, rank, r, i);
      var child := Items(h[r])[i];
      PureIsUnreachable(h, rank, child);
      var path :| LeadsToContainer(h, child, path);
      assert ([i] + path)[1..] == path;
      assert LeadsToContainer(h, r, [i] + path);
    }
  }

  /** The copy has exactly the paths of the source, each leading to the image of what it leads to there. */
  lemma {:induction false} SamePaths(h: Heap, rank: map<Ref, nat>, later: Heap, image: Memo, r: Ref, path: seq<nat>)
    requires Graph(h, rank) && Detached(h, rank, later, image) && r in image
    ensures Follow(h, r, path).At? ==> Follow(h, r, path).ref in image
    ensures Follow(later, image[r], path) ==
            if Follow(h, r, path).At? then At(image[Follow(h, r, path).ref]) else Missing
    decreases |path|
  {
    assert SameShape(h[r], later[image[r]]);
    if path != [] && path[0] < |Items(h[r])| {
      var item := Items(h[r])[path[0]];
      SamePaths(h, rank, later, image, item, path[1..]);
    }
  }

  /** Aliases and cycles are kept: two paths meet in the copy exactly when they meet in the source. */
  lemma CopyKeepsAliases(h: Heap, rank: map<Ref, nat>, later: Heap, root: Ref, c: Ref, p: seq<nat>, q: seq<nat>)
    requires Graph(h, rank) && IsCopy(h, rank, later, root, c)
    ensures Follow(later, c, p).At? <==> Follow(h, root, p).At?
    ensures Follow(later, c, p) == Follow(later, c, q) <==> Follow(h, root, p) == Follow(h, root, q)
  {
    var image: Memo :| Detached(h, rank, later, image) && root in image && c == image[root];
    SamePaths(h, rank, later, image, root, p);
    SamePaths(h, rank, later, image, root, q);
  }

  /** What the copy shares with the source cannot lead to a list or dictionary, every list or dictionary
      it reaches is its own, and what it reaches looks like the original. */
  lemma CopyIsDetached(h: Heap, rank: map<Ref, nat>, later: Heap, root: Ref, c: Ref, p: seq<nat>, x: Ref, y: Ref)
    requires Graph(h, rank) && IsCopy(h, rank, later, root, c)
    requires Follow(h, root, p) == At(x) && Follow(later, c, p) == At(y)
    ensures y in h <==> Pure(h, rank, x)
    ensures y in later && (later[y].Container? ==> y !in h) && SameShape(h[x], later[y])
    ensures forall z :: z in h ==> z in later && later[z] == h[z]
  {
    var image: Memo :| Detached(h, rank, later, image) && root in image && c == image[root];
    SamePaths(h, rank, later, image, root, p);
    assert y == image[x] && SameShape(h[x], later[image[x]]);
  }
}
