/** The port index: ports by owner and operation, derived from native records and used only while every
    record it read is as it was. Whatever the records are, a lookup answers as the full scan does. */
module PortLookup {
  import opened Collections

  type Ref = nat

  /** A plain string, or anything else. */
  datatype Value = Plain(text: nat) | Odd(payload: nat)

  /** What the index reads of a record: exact native types with tuples in their fields, or something
      that it does not decode. Native targets are named by their first field. */
  datatype View =
    | Port(bindings: seq<Ref>)
    | Binding(target: Ref, operations: seq<Value>)
    | Target(fields: seq<Value>)
    | Foreign(payload: nat)

  /** `rest` are the fields the index does not read. */
  datatype Record = Record(view: View, rest: nat)

  type Heap = map<Ref, Record>

  /** How records that are not native are decoded. */
  datatype Extension = Extension(
    bindings: (Heap, Ref) -> seq<Ref>, operations: (Heap, Ref) -> seq<Value>, owner: (Heap, Ref) -> Value)

  function ViewAt(h: Heap, r: Ref): View {
    if r in h then h[r].view else Foreign(0)
  }

  /** Native targets have an identifier, sometimes a slot, and a kind. */
  predicate NativeTarget(v: View) {
    v.Target? && 2 <= |v.fields| <= 3 && forall x :: x in v.fields ==> x.Plain?
  }

  function Bindings(h: Heap, e: Extension, port: Ref): seq<Ref> {
    if ViewAt(h, port).Port? then ViewAt(h, port).bindings else e.bindings(h, port)
  }

  function Operations(h: Heap, e: Extension, binding: Ref): seq<Value> {
    if ViewAt(h, binding).Binding? then ViewAt(h, binding).operations else e.operations(h, binding)
  }

  /** `decode_target` */
  function Owner(h: Heap, e: Extension, binding: Ref): Value {
    if ViewAt(h, binding).Binding? && NativeTarget(ViewAt(h, ViewAt(h, binding).target))
    then ViewAt(h, ViewAt(h, binding).target).fields[0] else e.owner(h, binding)
  }

  type Key = (Value, Value)

  predicate Serves(h: Heap, e: Extension, port: Ref, key: Key) {
    exists b :: b in Bindings(h, e, port) && Owner(h, e, b) == key.0 && key.1 in Operations(h, e, b)
  }

  /** The full scan, in port order. */
  function Scan(h: Heap, e: Extension, ports: seq<Ref>, key: Key): seq<Ref> {
    if ports == [] then []
    else
      var init, last := Scan(h, e, ports[..|ports| - 1], key), ports[|ports| - 1];
      if Serves(h, e, last, key) then init + [last] else init
  }

  datatype Lookup = Lookup(ports: seq<Ref>, guards: seq<(Ref, View)>, index: map<Key, seq<Ref>>)

  function Find(index: map<Key, seq<Ref>>, key: Key): seq<Ref> {
    if key in index then index[key] else []
  }

  /** `matches`: the same ports in the same order, and every record read as it was. */
  predicate Matches(l: Lookup, h: Heap, ports: seq<Ref>) {
    ports == l.ports && Guarded(l.guards, h)
  }

  predicate Guarded(guards: seq<(Ref, View)>, h: Heap) {
    forall g :: g in guards ==> ViewAt(h, g.0) == g.1
  }

  /** A port the index decodes: native down to its targets, with plain strings. */
  predicate NativeBinding(h: Heap, b: Ref) {
    && ViewAt(h, b).Binding? && NativeTarget(ViewAt(h, ViewAt(h, b).target))
    && forall x :: x in ViewAt(h, b).operations ==> x.Plain?
  }

  /** `guards` has the views of `port` and of everything reached from its first `n` bindings. */
  ghost predicate Covers(guards: seq<(Ref, View)>, h: Heap, port: Ref, n: nat) {
    && (port, ViewAt(h, port)) in guards && ViewAt(h, port).Port? && n <= |ViewAt(h, port).bindings|
    && forall i {:trigger ViewAt(h, port).bindings[i]} :: 0 <= i < n ==>
         var b := ViewAt(h, port).bindings[i];
         NativeBinding(h, b) && (b, ViewAt(h, b)) in guards && (ViewAt(h, b).target, ViewAt(h, ViewAt(h, b).target)) in guards
  }

  /** Records that are as they were serve the same keys. */
  lemma SameServes(guards: seq<(Ref, View)>, h: Heap, later: Heap, e: Extension, port: Ref, key: Key)
    requires ViewAt(h, port).Port? && Covers(guards, h, port, |ViewAt(h, port).bindings|) && Guarded(guards, later)
    ensures Serves(later, e, port, key) == Serves(h, e, port, key)
  {
    var bindings := ViewAt(h, port).bindings;
    assert ViewAt(later, port) == ViewAt(h, port);
    forall b | b in bindings ensures Owner(later, e, b) == Owner(h, e, b) && Operations(later, e, b) == Operations(h, e, b) {
      var i :| 0 <= i < |bindings| && bindings[i] == b;
      assert NativeBinding(h, ViewAt(h, port).bindings[i]);
    }
  }

  /** Every scan from now on, as long as the guards hold, finds what the index has for these ports. */
  ghost predicate Certified(l: Lookup, e: Extension) {
    forall h, key :: Guarded(l.guards, h) ==> Scan(h, e, l.ports, key) == Find(l.index, key)
  }

  lemma {:induction false} SameScan(guards: seq<(Ref, View)>, h: Heap, later: Heap, e: Extension, ports: seq<Ref>, key: Key)
    requires Guarded(guards, later)
    requires forall p :: p in ports ==> ViewAt(h, p).Port? && Covers(guards, h, p, |ViewAt(h, p).bindings|)
    ensures Scan(later, e, ports, key) == Scan(h, e, ports, key)
  {
    hide Covers, Serves, Guarded;
    if ports != [] {
      SameScan(guards, h, later, e, ports[..|ports| - 1], key);
      SameServes(guards, h, later, e, ports[|ports| - 1], key);
    }
  }

  /** The keys the first `n` bindings of a port serve. */
  predicate ServesFirst(h: Heap, e: Extension, port: Ref, n: nat, key: Key)
    requires n <= |Bindings(h, e, port)|
  {
    exists i :: 0 <= i < n && ServesBy(h, e, Bindings(h, e, port)[i], key)
  }

  predicate ServesBy(h: Heap, e: Extension, b: Ref, key: Key) {
    Owner(h, e, b) == key.0 && key.1 in Operations(h, e, b)
  }

  lemma ServesNext(h: Heap, e: Extension, port: Ref, n: nat)
    requires n < |Bindings(h, e, port)|
    ensures forall key :: ServesFirst(h, e, port, n + 1, key) <==> ServesFirst(h, e, port, n, key) || ServesBy(h, e, Bindings(h, e, port)[n], key)
  {
    hide ServesBy;
  }

  /** The index while a port is being entered: its keys so far are `seen`, each with the port at the end. */
  ghost predicate Entering(before: map<Key, seq<Ref>>, index: map<Key, seq<Ref>>, port: Ref, seen: set<Key>) {
    forall key :: Find(index, key) == if key in seen then Find(before, key) + [port] else Find(before, key)
  }

  /** One binding's operations are entered once per key. */
  method EnterBinding(h: Heap, e: Extension, port: Ref, b: Ref, ghost before: map<Key, seq<Ref>>, index: map<Key, seq<Ref>>, seen: set<Key>)
    returns (more: map<Key, seq<Ref>>, known: set<Key>)
    requires NativeBinding(h, b) && Entering(before, index, port, seen)
    ensures Entering(before, more, port, known)
    ensures forall key :: key in known <==> key in seen || ServesBy(h, e, b, key)
  {
    more, known := index, seen;
    var owner, operations := ViewAt(h, ViewAt(h, b).target).fields[0], ViewAt(h, b).operations;
    for i := 0 to |operations|
      invariant Entering(before, more, port, known)
      invariant forall key :: key in known <==> key in seen || (key.0 == owner && key.1 in operations[..i])
    {
      var key := (owner, operations[i]);
      assert operations[..i + 1] == operations[..i] + [operations[i]];
      if key !in known {
        more := more[key := Find(more, key) + [port]];
        known := known + {key};
      }
    }
    assert operations[..|operations|] == operations;
  }

  /** One port, or a refusal if it is not native. */
  method EnterPort(h: Heap, e: Extension, port: Ref, guards: seq<(Ref, View)>, index: map<Key, seq<Ref>>)
    returns (ok: bool, more: map<Key, seq<Ref>>, read: seq<(Ref, View)>)
    requires Guarded(guards, h)
    ensures ok ==> Guarded(read, h) && guards <= read && ViewAt(h, port).Port? && Covers(read, h, port, |ViewAt(h, port).bindings|)
    ensures ok ==> forall key :: Find(more, key) == if Serves(h, e, port, key) then Find(index, key) + [port] else Find(index, key)
    ensures !ok ==> !ViewAt(h, port).Port? || exists b :: b in ViewAt(h, port).bindings && !NativeBinding(h, b)
  {
    more, read := index, guards;
    if !ViewAt(h, port).Port? { return false, more, read; }
    var bindings := ViewAt(h, port).bindings;
    read := read + [(port, ViewAt(h, port))];
    var seen: set<Key> := {};
    for i := 0 to |bindings|
      invariant Guarded(read, h) && guards <= read && Covers(read, h, port, i) && Entering(index, more, port, seen)
      invariant forall key :: key in seen <==> ServesFirst(h, e, port, i, key)
    {
      var b := bindings[i];
      if !NativeBinding(h, b) {
        assert b in ViewAt(h, port).bindings;
        return false, more, read;
      }
      more, seen := EnterBinding(h, e, port, b, index, more, seen);
      ServesNext(h, e, port, i);
      read := read + [(b, ViewAt(h, b)), (ViewAt(h, b).target, ViewAt(h, ViewAt(h, b).target))];
    }
    ok := true;
    forall key ensures key in seen <==> Serves(h, e, port, key) {}
  }

  predicate AllNative(h: Heap, ports: seq<Ref>) {
    forall p :: p in ports ==> ViewAt(h, p).Port? && forall b :: b in ViewAt(h, p).bindings ==> NativeBinding(h, b)
  }

  /** `build`: declines exactly when some record is not native; otherwise the index is right for good. */
  method Build(h: Heap, e: Extension, ports: seq<Ref>) returns (result: Option<Lookup>)
    ensures result.Some? <==> AllNative(h, ports)
    ensures result.Some? ==> Matches(result.value, h, ports) && Certified(result.value, e)
  {
    var guards: seq<(Ref, View)>, index: map<Key, seq<Ref>> := [], map[];
    for i := 0 to |ports|
      invariant Guarded(guards, h) && AllNative(h, ports[..i])
      invariant forall p :: p in ports[..i] ==> ViewAt(h, p).Port? && Covers(guards, h, p, |ViewAt(h, p).bindings|)
      invariant forall key :: Find(index, key) == Scan(h, e, ports[..i], key)
    {
      hide Covers, Serves, Guarded, NativeBinding;
      var ok, more, read := EnterPort(h, e, ports[i], guards, index);
      if !ok {
        assert ports[i] in ports;
        return None;
      }
      assert ports[..i + 1] == ports[..i] + [ports[i]] && ports[..i + 1][..i] == ports[..i];
      forall p | p in ports[..i] ensures Covers(read, h, p, |ViewAt(h, p).bindings|) { CoversMore(guards, read, h, p); }
      guards, index := read, more;
    }
    assert ports[..|ports|] == ports;
    result := Some(Lookup(ports, guards, index));
    forall later, key | Guarded(guards, later) ensures Scan(later, e, ports, key) == Find(index, key) {
      SameScan(guards, h, later, e, ports, key);
    }
  }

  lemma CoversMore(guards: seq<(Ref, View)>, more: seq<(Ref, View)>, h: Heap, port: Ref)
    requires guards <= more && ViewAt(h, port).Port? && Covers(guards, h, port, |ViewAt(h, port).bindings|)
    ensures Covers(more, h, port, |ViewAt(h, port).bindings|)
  {
    assert forall g :: g in guards ==> g in more;
  }

  class Services {
    const extension: Extension
    var lookup: Option<Lookup>

    ghost predicate Valid()
      reads this
    {
      lookup.Some? ==> Certified(lookup.value, extension)
    }

    constructor (e: Extension)
      ensures Valid() && extension == e
    {
      extension, lookup := e, None;
    }

    /** `ports_for`: the cached index, rebuilt when a record changed, or the scan. */
    method PortsFor(h: Heap, ports: seq<Ref>, owner: Value, operation: Value) returns (found: seq<Ref>)
      requires Valid()
      modifies `lookup
      ensures Valid() && found == Scan(h, extension, ports, (owner, operation))
    {
      if lookup.None? || !Matches(lookup.value, h, ports) { lookup := Build(h, extension, ports); }
      if lookup.Some? { return Find(lookup.value.index, (owner, operation)); }
      found := Scan(h, extension, ports, (owner, operation));
    }
  }
}
