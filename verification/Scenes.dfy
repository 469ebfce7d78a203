/** Authored scenes: defaults plus overrides, expanded into a physical factory, and the reverse
    direction that compresses a factory into a scene. Expanding a compressed factory gives it back. */
module Scenes {

  /** Field names and the words that fields hold. */
  datatype Key =
    | ProcessingRate | QualityModes | Breakdown | JobCapacity | MoveCells | InitialHeading | Battery
    | EnergyCapacity | InitialEnergy | MoveEnergy | IdleEnergy
    | Role | Storage | Mode | Capacity | Slots | Pool | MachinePre | MachinePost
    | Enabled | Intervals | Repair | Low | Medium | High | Scale | Lower | Upper
    | Other(name: string)

  type Fields = map<Key, Json>

  datatype Json = Null | Flag(on: bool) | Number(n: int) | Text(text: Key) | List(items: seq<Json>) | Mapping(fields: map<Key, Json>)

  // -- merging and its inverse -----------------------------------------------------------------

  function Get(d: Fields, key: Key): Json {
    if key in d then d[key] else Null
  }

  /** Both are mappings and the override does not switch to another mode. */
  predicate Recurses(default: Json, value: Json) {
    && default.Mapping? && value.Mapping?
    && !(Mode in value.fields && value.fields[Mode] != Get(default.fields, Mode))
  }

  /** Mappings merge by field; lists and scalars replace. */
  function Merge(defaults: Fields, overrides: Fields): Fields
    decreases Mapping(overrides)
  {
    map k | k in defaults.Keys + overrides.Keys ::
      if k !in overrides then defaults[k]
      else if k in defaults && Recurses(defaults[k], overrides[k]) then Mapping(Merge(defaults[k].fields, overrides[k].fields))
      else overrides[k]
  }

  /** `merge`, field by field. */
  method MergeFields(defaults: Fields, overrides: Fields) returns (result: Fields)
    ensures result == Merge(defaults, overrides)
    decreases Mapping(overrides)
  {
    result := defaults;
    var left := overrides.Keys;
    while left != {}
      invariant left <= overrides.Keys && result.Keys == defaults.Keys + (overrides.Keys - left)
      invariant forall k :: k in result ==> result[k] == if k in left then defaults[k] else Merge(defaults, overrides)[k]
      decreases left
    {
      var k :| k in left;
      left := left - {k};
      if k in result && Recurses(result[k], overrides[k]) {
        var inner := MergeFields(result[k].fields, overrides[k].fields);
        result := result[k := Mapping(inner)];
      } else {
        result := result[k := overrides[k]];
      }
    }
  }

  function Difference(defaults: Fields, values: Fields): Fields {
    map k | k in values && Get(defaults, k) != values[k] :: values[k]
  }

  /** Every field the default has is given again, at every level that merges. */
  predicate Covers(values: Fields, defaults: Fields)
    decreases Mapping(values)
  {
    && defaults.Keys <= values.Keys
    && forall k :: k in defaults && k in values && Recurses(defaults[k], values[k]) ==> Covers(values[k].fields, defaults[k].fields)
  }

  lemma {:induction false} MergeReplaces(defaults: Fields, values: Fields)
    ensures Merge(defaults, values) == values <==> Covers(values, defaults)
    decreases Mapping(values)
  {
    var merged := Merge(defaults, values);
    forall k | k in defaults && k in values && Recurses(defaults[k], values[k])
      ensures merged[k] == values[k] <==> Covers(values[k].fields, defaults[k].fields)
    {
      MergeReplaces(defaults[k].fields, values[k].fields);
    }
    assert merged.Keys == defaults.Keys + values.Keys;
    if Covers(values, defaults) {
      forall k | k in merged ensures k in values && merged[k] == values[k] {}
    }
    if merged == values {
      assert defaults.Keys <= values.Keys;
      forall k | k in defaults && k in values && Recurses(defaults[k], values[k]) ensures Covers(values[k].fields, defaults[k].fields) {
        assert merged[k] == values[k];
      }
    }
  }

  /** When the stored difference gives the values back: they repeat every default field, add no null
      field, and every mapping they change without switching its mode repeats its default's fields. */
  predicate Recoverable(defaults: Fields, values: Fields) {
    && defaults.Keys <= values.Keys
    && (forall k :: k in values && k !in defaults ==> values[k] != Null)
    && forall k :: k in defaults && k in values && defaults[k] != values[k] && Recurses(defaults[k], values[k]) ==>
         Covers(values[k].fields, defaults[k].fields)
  }

  /** The exact round-trip condition of `merge(d, difference(d, v))`. */
  lemma MergeDifferenceExactly(defaults: Fields, values: Fields)
    ensures Merge(defaults, Difference(defaults, values)) == values <==> Recoverable(defaults, values)
  {
    var changes := Difference(defaults, values);
    var merged := Merge(defaults, changes);
    forall k | k in defaults && k in changes && Recurses(defaults[k], changes[k])
      ensures merged[k] == values[k] <==> Covers(values[k].fields, defaults[k].fields)
    {
      MergeReplaces(defaults[k].fields, values[k].fields);
    }
    if Recoverable(defaults, values) {
      forall k | k in merged ensures k in values && merged[k] == values[k] {}
      forall k | k in values ensures k in merged { if k !in defaults { assert k in changes; } }
    }
    if merged == values {
      forall k | k in values && k !in defaults ensures values[k] != Null { assert k in merged; }
      forall k | k in defaults && k in values && defaults[k] != values[k] && Recurses(defaults[k], values[k])
        ensures Covers(values[k].fields, defaults[k].fields)
      {
        assert merged[k] == values[k] && k in changes;
      }
    }
  }

  /** A default field the values leave out comes back. */
  lemma LostField()
    ensures var d := map[Battery := Mapping(map[Capacity := Number(5), Other("reserve") := Number(1)])];
            var v := map[Battery := Mapping(map[Capacity := Number(9)])];
            Merge(d, Difference(d, v)) != v
  {
    var d := map[Battery := Mapping(map[Capacity := Number(5), Other("reserve") := Number(1)])];
    var v := map[Battery := Mapping(map[Capacity := Number(9)])];
    MergeDifferenceExactly(d, v);
    assert Recurses(d[Battery], v[Battery]);
    assert Other("reserve") in d[Battery].fields && Other("reserve") !in v[Battery].fields;
    assert Battery in d && Battery in v;
  }

  // -- the most common value -------------------------------------------------------------------

  function Leader(values: seq<Json>, upto: nat): (r: Json)
    requires 0 < upto <= |values|
    ensures r in values[..upto]
    ensures forall v :: v in values[..upto] ==> multiset(values)[v] <= multiset(values)[r]
  {
    if upto == 1 then values[0]
    else
      var best := Leader(values, upto - 1);
      assert values[..upto] == values[..upto - 1] + [values[upto - 1]];
      if multiset(values)[best] < multiset(values)[values[upto - 1]] then values[upto - 1] else best
  }

  /** The values of one field, in item order. */
  function Values(items: seq<Fields>, key: Key): (r: seq<Json>)
    ensures forall v :: v in r <==> exists item :: item in items && key in item && item[key] == v
  {
    if items == [] then []
    else
      var init, last := items[..|items| - 1], items[|items| - 1];
      assert forall item :: item in items <==> item in init || item == last;
      if key in last then Values(init, key) + [last[key]] else Values(init, key)
  }

  /** `common`: the field's most frequent value, the first one on a tie; absent if no item has it. */
  function Common(items: seq<Fields>, keys: set<Key>): Fields {
    map k | k in keys && Values(items, k) != [] :: Leader(Values(items, k), |Values(items, k)|)
  }

  /** The items in which the field has the value. */
  ghost function Holders(items: seq<Fields>, key: Key, v: Json): (r: set<int>)
    ensures forall i :: i in r <==> 0 <= i < |items| && key in items[i] && items[i][key] == v
  {
    set i | 0 <= i < |items| && key in items[i] && items[i][key] == v
  }

  lemma {:induction false} HoldersCount(items: seq<Fields>, key: Key, v: Json)
    ensures multiset(Values(items, key))[v] == |Holders(items, key, v)|
  {
    if items != [] {
      var n := |items| - 1;
      HoldersCount(items[..n], key, v);
      assert Holders(items, key, v) == Holders(items[..n], key, v) + if key in items[n] && items[n][key] == v then {n} else {};
    }
  }

  /** Where the values come from, in item order. */
  ghost function Sources(items: seq<Fields>, key: Key): (r: seq<int>)
    ensures |r| == |Values(items, key)|
    ensures forall k :: 0 <= k < |r| ==> 0 <= r[k] < |items| && key in items[r[k]] && items[r[k]][key] == Values(items, key)[k]
    ensures forall k, x :: 0 <= k < x < |r| ==> r[k] < r[x]
    ensures forall i :: 0 <= i < |items| && key in items[i] ==> i in r
  {
    if items == [] then []
    else
      var init := Sources(items[..|items| - 1], key);
      if key in items[|items| - 1] then init + [|items| - 1] else init
  }

  lemma {:induction false} LeaderIsFirst(values: seq<Json>, upto: nat) returns (k: nat)
    requires 0 < upto <= |values|
    ensures k < upto && values[k] == Leader(values, upto)
    ensures forall x :: 0 <= x < upto ==> multiset(values)[values[x]] <= multiset(values)[values[k]]
    ensures forall x :: 0 <= x < k ==> multiset(values)[values[x]] < multiset(values)[values[k]]
  {
    if upto == 1 {
      k := 0;
    } else {
      k := LeaderIsFirst(values, upto - 1);
      if multiset(values)[values[k]] < multiset(values)[values[upto - 1]] { k := upto - 1; }
    }
  }

  /** A shared default is there exactly if some item has the field, and is the value that most items have, of several
      such the one that comes first. */
  lemma CommonAt(items: seq<Fields>, keys: set<Key>, k: Key)
    ensures k in Common(items, keys) <==> k in keys && exists i :: 0 <= i < |items| && k in items[i]
    ensures k in Common(items, keys) ==> exists i :: IsLeading(items, k, i) && items[i][k] == Common(items, keys)[k]
  {
    var values, sources := Values(items, k), Sources(items, k);
    if k in keys && values != [] {
      var x := LeaderIsFirst(values, |values|);
      assert k in items[sources[x]];
      forall o | 0 <= o < |items| && k in items[o]
        ensures var n, m := |Holders(items, k, items[o][k])|, |Holders(items, k, items[sources[x]][k])|; n <= m && (o < sources[x] ==> n < m)
      {
        HoldersCount(items, k, items[o][k]);
        HoldersCount(items, k, items[sources[x]][k]);
        var y :| 0 <= y < |sources| && sources[y] == o;
        assert values[y] == items[o][k];
      }
      assert IsLeading(items, k, sources[x]);
    }
  }

  /** No field value is more frequent, and none before it as frequent. */
  ghost predicate IsLeading(items: seq<Fields>, key: Key, i: int) {
    && 0 <= i < |items| && key in items[i]
    && forall o :: 0 <= o < |items| && key in items[o] ==>
         var n, m := |Holders(items, key, items[o][key])|, |Holders(items, key, items[i][key])|;
         n <= m && (o < i ==> n < m)
  }

  // -- factories and scenes --------------------------------------------------------------------

  datatype Machine = Machine(id: string, name: string, operations: seq<string>, x: int, y: int, width: int, height: int,
                             rotation: int, parameters: Fields)
  datatype Agv = Agv(id: string, name: string, x: int, y: int, parameters: Fields)
  datatype Factory = Factory(machines: seq<Machine>, agvs: seq<Agv>, buffers: seq<Fields>)

  /** The workload's fault rules: a common rule, enabled, and rules of single machines. */
  datatype Faults = Faults(rule: Fields, machines: map<string, Fields>)

  datatype MachineItem = MachineItem(id: string, name: string, operation: string, x: int, y: int, overrides: Fields)
  datatype AgvItem = AgvItem(id: string, name: string, x: int, y: int, overrides: Fields)
  datatype Scene = Scene(machineDefaults: Fields, machines: seq<MachineItem>, agvDefaults: Fields, agvs: seq<AgvItem>,
                         bufferDefaults: Fields, buffers: seq<Fields>)

  datatype SceneError = NotOneCell | NotOneOperation | UnknownField
  datatype Result<T> = Ok(value: T) | Failed(error: SceneError)

  const MACHINE_FIELDS: set<Key> := {ProcessingRate, QualityModes}
  const MACHINE_PARAMETERS: set<Key> := MACHINE_FIELDS + {Breakdown}
  const AGV_PARAMETERS: set<Key> := {JobCapacity, MoveCells, InitialHeading, Battery}

  function Normal(): Json {
    List([Mapping(map[Other("quality_mode_id") := Text(Other("normal")), Other("time_scale") := Text(Other("1")), Other("error_rate") := Text(Other("0"))])])
  }

  function PoolOfFour(): Fields {
    map[Storage := Mapping(map[Mode := Text(Pool), Capacity := Number(4)])]
  }

  /** What a scene file may leave out. `breakdown` is the domain's own default rule. */
  function MachineBuiltins(breakdown: Fields): Fields {
    map[ProcessingRate := Text(Other("1")), QualityModes := Normal(), Breakdown := Mapping(breakdown)]
  }

  function AgvBuiltins(): Fields {
    map[JobCapacity := Number(1), MoveCells := Number(1), InitialHeading := Text(Other("east")), Battery := Null]
  }

  function BufferBuiltins(): Fields {
    map[MachinePre := Mapping(PoolOfFour()), MachinePost := Mapping(PoolOfFour())]
  }

  function Parameters(machines: seq<Machine>): seq<Fields> {
    seq(|machines|, i requires 0 <= i < |machines| => machines[i].parameters)
  }

  function AgvParameters(agvs: seq<Agv>): seq<Fields> {
    seq(|agvs|, i requires 0 <= i < |agvs| => agvs[i].parameters)
  }

  /** The values a machine's parameters are stored against. */
  function MachineDefaults(f: Factory, faults: Faults): Fields {
    MachineBuiltins(faults.rule) + Common(Parameters(f.machines), MACHINE_FIELDS) + map[Breakdown := Mapping(faults.rule)]
  }

  function AgvDefaults(f: Factory): Fields {
    AgvBuiltins() + Common(AgvParameters(f.agvs), AGV_PARAMETERS)
  }

  function Group(buffers: seq<Fields>, role: Key): (r: seq<Fields>)
    ensures forall b :: b in r <==> b in buffers && Get(b, Role) == Text(role)
  {
    if buffers == [] then []
    else
      var init, last := buffers[..|buffers| - 1], buffers[|buffers| - 1];
      assert forall b :: b in buffers <==> b in init || b == last;
      if Get(last, Role) == Text(role) then Group(init, role) + [last] else Group(init, role)
  }

  function RoleDefault(buffers: seq<Fields>, role: Key): Fields {
    var shared := Common(Group(buffers, role), {Storage});
    if shared == map[] then PoolOfFour() else shared
  }

  function BufferDefaults(buffers: seq<Fields>): Fields {
    map[MachinePre := Mapping(RoleDefault(buffers, MachinePre)), MachinePost := Mapping(RoleDefault(buffers, MachinePost))]
  }

  function CompactMachine(defaults: Fields, m: Machine, faults: Faults): MachineItem
    requires |m.operations| == 1
  {
    var changes := Difference(defaults, m.parameters);
    MachineItem(m.id, m.name, m.operations[0], m.x, m.y,
                if m.id in faults.machines then changes[Breakdown := Mapping(faults.machines[m.id])] else changes)
  }

  function CompactAgv(defaults: Fields, a: Agv): AgvItem {
    AgvItem(a.id, a.name, a.x, a.y, Difference(defaults, a.parameters))
  }

  /** A buffer whose storage is its role's default does not repeat it. */
  function CompactBuffer(defaults: Fields, b: Fields): Fields {
    var role := Get(b, Role);
    if role.Text? && role.text in defaults && defaults[role.text].Mapping? && Get(b, Storage) == Get(defaults[role.text].fields, Storage)
    then b - {Storage} else b
  }

  predicate Compressible(m: Machine) {
    m.width == 1 && m.height == 1 && |m.operations| == 1
  }

  method CompactMachines(machines: seq<Machine>, defaults: Fields, faults: Faults) returns (items: seq<MachineItem>)
    requires forall m :: m in machines ==> Compressible(m)
    ensures |items| == |machines|
    ensures forall k {:trigger items[k]} :: 0 <= k < |items| ==>
              Compressible(machines[k]) && items[k] == CompactMachine(defaults, machines[k], faults)
  {
    items := [];
    for i := 0 to |machines|
      invariant |items| == i
      invariant forall k {:trigger items[k]} :: 0 <= k < i ==> Compressible(machines[k]) && items[k] == CompactMachine(defaults, machines[k], faults)
    {
      assert machines[i] in machines;
      items := items + [CompactMachine(defaults, machines[i], faults)];
    }
  }

  method CompactAgvs(agvs: seq<Agv>, defaults: Fields) returns (items: seq<AgvItem>)
    ensures |items| == |agvs| && forall k {:trigger items[k]} :: 0 <= k < |items| ==> items[k] == CompactAgv(defaults, agvs[k])
  {
    items := [];
    for i := 0 to |agvs|
      invariant |items| == i && forall k {:trigger items[k]} :: 0 <= k < i ==> items[k] == CompactAgv(defaults, agvs[k])
    {
      items := items + [CompactAgv(defaults, agvs[i])];
    }
  }

  method CompactBuffers(buffers: seq<Fields>, defaults: Fields) returns (items: seq<Fields>)
    ensures |items| == |buffers| && forall k {:trigger items[k]} :: 0 <= k < |items| ==> items[k] == CompactBuffer(defaults, buffers[k])
  {
    items := [];
    for i := 0 to |buffers|
      invariant |items| == i && forall k {:trigger items[k]} :: 0 <= k < i ==> items[k] == CompactBuffer(defaults, buffers[k])
    {
      items := items + [CompactBuffer(defaults, buffers[i])];
    }
  }

  /** `from_factory`: refuses larger machines and machines with several operations. */
  method FromFactory(f: Factory, faults: Faults) returns (result: Result<Scene>)
    ensures result.Ok? <==> forall m :: m in f.machines ==> Compressible(m)
    ensures result.Ok? ==> IsCompressed(result.value, f, faults) && Compressed(result.value, f, faults)
  {
    hide Compressed, CompactMachine, CompactAgv, CompactBuffer, MachineDefaults, AgvDefaults, BufferDefaults;
    for i := 0 to |f.machines|
      invariant forall k :: 0 <= k < i ==> Compressible(f.machines[k])
    {
      var m := f.machines[i];
      assert m in f.machines;
      if m.width != 1 || m.height != 1 { return Failed(NotOneCell); }
      if |m.operations| != 1 { return Failed(NotOneOperation); }
    }
    var machineDefaults, agvDefaults, bufferDefaults := MachineDefaults(f, faults), AgvDefaults(f), BufferDefaults(f.buffers);
    var machines := CompactMachines(f.machines, machineDefaults, faults);
    var agvs := CompactAgvs(f.agvs, agvDefaults);
    var buffers := CompactBuffers(f.buffers, bufferDefaults);
    result := Ok(Scene(machineDefaults, machines, agvDefaults, agvs, bufferDefaults, buffers));
    CompressedMeans(result.value, f, faults);
  }

  ghost predicate IsCompressed(s: Scene, f: Factory, faults: Faults) {
    && (forall m :: m in f.machines ==> Compressible(m))
    && s.machineDefaults == MachineDefaults(f, faults) && s.agvDefaults == AgvDefaults(f) && s.bufferDefaults == BufferDefaults(f.buffers)
    && |s.machines| == |f.machines| && |s.agvs| == |f.agvs| && |s.buffers| == |f.buffers|
    && (forall k {:trigger s.machines[k]} :: 0 <= k < |s.machines| ==>
          Compressible(f.machines[k]) && s.machines[k] == CompactMachine(s.machineDefaults, f.machines[k], faults))
    && (forall k {:trigger s.agvs[k]} :: 0 <= k < |s.agvs| ==> s.agvs[k] == CompactAgv(s.agvDefaults, f.agvs[k]))
    && (forall k {:trigger s.buffers[k]} :: 0 <= k < |s.buffers| ==> s.buffers[k] == CompactBuffer(s.bufferDefaults, f.buffers[k]))
  }

  // What a compressed factory is, said without the functions that compute it.

  ghost predicate SomeHolds(items: seq<Fields>, key: Key) {
    exists i :: 0 <= i < |items| && key in items[i]
  }

  /** A field of the list that some item has is the leading value of the items, any other the built-in one. */
  ghost predicate Shared(d: Fields, items: seq<Fields>, keys: set<Key>, builtin: Fields) {
    && (forall k :: k in d <==> k in builtin || (k in keys && SomeHolds(items, k)))
    && forall k :: k in d ==>
         if k in keys && SomeHolds(items, k) then exists i :: IsLeading(items, k, i) && d[k] == items[i][k]
         else k in builtin && d[k] == builtin[k]
  }

  /** Exactly the fields that differ from the default are given. */
  ghost predicate Differs(given: Fields, defaults: Fields, values: Fields) {
    && (forall k :: k in given <==> k in values && (if k in defaults then defaults[k] != values[k] else values[k] != Null))
    && forall k :: k in given ==> given[k] == values[k]
  }

  ghost predicate ItemOf(item: MachineItem, defaults: Fields, m: Machine, faults: Faults) {
    && item.id == m.id && item.name == m.name && m.operations == [item.operation] && item.x == m.x && item.y == m.y
    && if m.id in faults.machines
       then Breakdown in item.overrides && item.overrides[Breakdown] == Mapping(faults.machines[m.id])
            && Differs(item.overrides - {Breakdown}, defaults, m.parameters - {Breakdown})
       else Differs(item.overrides, defaults, m.parameters)
  }

  ghost predicate AgvItemOf(item: AgvItem, defaults: Fields, a: Agv) {
    item.id == a.id && item.name == a.name && item.x == a.x && item.y == a.y && Differs(item.overrides, defaults, a.parameters)
  }

  /** The storage most buffers of the role have, and a pool of four if none has one. */
  ghost predicate StorageOf(d: Json, buffers: seq<Fields>, role: Key) {
    var group := Group(buffers, role);
    && d.Mapping? && d.fields.Keys == {Storage}
    && if SomeHolds(group, Storage) then exists i :: IsLeading(group, Storage, i) && d.fields[Storage] == group[i][Storage]
       else d.fields[Storage] == Mapping(map[Mode := Text(Pool), Capacity := Number(4)])
  }

  /** A buffer leaves out its storage exactly if that is its role's. */
  ghost predicate BufferItemOf(item: Fields, pre: Json, post: Json, b: Fields) {
    var shared := if Role in b && b[Role] == Text(MachinePre) then pre else if Role in b && b[Role] == Text(MachinePost) then post else Null;
    if shared.Mapping? && Storage in b && Storage in shared.fields && b[Storage] == shared.fields[Storage]
    then item == b - {Storage} else item == b
  }

  ghost predicate Compressed(s: Scene, f: Factory, faults: Faults) {
    && |s.machines| == |f.machines| && |s.agvs| == |f.agvs| && |s.buffers| == |f.buffers|
    && Breakdown in s.machineDefaults && s.machineDefaults[Breakdown] == Mapping(faults.rule)
    && Shared(s.machineDefaults - {Breakdown}, Parameters(f.machines), {ProcessingRate, QualityModes},
              map[ProcessingRate := Text(Other("1")), QualityModes := Normal()])
    && Shared(s.agvDefaults, AgvParameters(f.agvs), {JobCapacity, MoveCells, InitialHeading, Battery},
              map[JobCapacity := Number(1), MoveCells := Number(1), InitialHeading := Text(Other("east")), Battery := Null])
    && s.bufferDefaults.Keys == {MachinePre, MachinePost}
    && StorageOf(s.bufferDefaults[MachinePre], f.buffers, MachinePre) && StorageOf(s.bufferDefaults[MachinePost], f.buffers, MachinePost)
    && (forall k {:trigger s.machines[k]} :: 0 <= k < |s.machines| ==> ItemOf(s.machines[k], s.machineDefaults, f.machines[k], faults))
    && (forall k {:trigger s.agvs[k]} :: 0 <= k < |s.agvs| ==> AgvItemOf(s.agvs[k], s.agvDefaults, f.agvs[k]))
    && (forall k {:trigger s.buffers[k]} :: 0 <= k < |s.buffers| ==>
          BufferItemOf(s.buffers[k], s.bufferDefaults[MachinePre], s.bufferDefaults[MachinePost], f.buffers[k]))
  }

  lemma CommonIsShared(items: seq<Fields>, keys: set<Key>, builtin: Fields)
    ensures Shared(builtin + Common(items, keys), items, keys, builtin)
  {
    forall k ensures k in Common(items, keys) <==> k in keys && SomeHolds(items, k) { CommonAt(items, keys, k); }
    forall k | k in Common(items, keys) ensures exists i :: IsLeading(items, k, i) && items[i][k] == Common(items, keys)[k] { CommonAt(items, keys, k); }
    hide IsLeading, Common, SomeHolds;
  }

  lemma DifferenceDiffers(defaults: Fields, values: Fields)
    ensures Differs(Difference(defaults, values), defaults, values)
  {
  }

  lemma MachineCompacts(defaults: Fields, m: Machine, faults: Faults)
    requires |m.operations| == 1
    ensures ItemOf(CompactMachine(defaults, m, faults), defaults, m, faults)
  {
    DifferenceDiffers(defaults, m.parameters);
    if m.id in faults.machines {
      var item := CompactMachine(defaults, m, faults);
      DifferenceDiffers(defaults, m.parameters - {Breakdown});
      assert item.overrides - {Breakdown} == Difference(defaults, m.parameters - {Breakdown});
    }
    assert m.operations == [m.operations[0]];
    hide Differs, Difference;
  }

  lemma RoleStorage(buffers: seq<Fields>, role: Key)
    ensures StorageOf(Mapping(RoleDefault(buffers, role)), buffers, role)
  {
    var group := Group(buffers, role);
    var shared := Common(group, {Storage});
    CommonAt(group, {Storage}, Storage);
    assert shared == map[] <==> Storage !in shared by { if Storage !in shared { assert shared.Keys == {}; } }
    assert shared != map[] ==> shared.Keys == {Storage};
    hide IsLeading, Common, Group;
  }

  lemma BufferCompacts(buffers: seq<Fields>, b: Fields)
    ensures var d := BufferDefaults(buffers); BufferItemOf(CompactBuffer(d, b), d[MachinePre], d[MachinePost], b)
  {
    var d := BufferDefaults(buffers);
    RoleStorage(buffers, MachinePre);
    RoleStorage(buffers, MachinePost);
    hide RoleDefault, Group, IsLeading;
    assert Storage !in b ==> b - {Storage} == b;
  }

  lemma MachineDefaultsShared(f: Factory, faults: Faults)
    ensures var d := MachineDefaults(f, faults);
            && Breakdown in d && d[Breakdown] == Mapping(faults.rule)
            && Shared(d - {Breakdown}, Parameters(f.machines), {ProcessingRate, QualityModes},
                      map[ProcessingRate := Text(Other("1")), QualityModes := Normal()])
  {
    var builtin := map[ProcessingRate := Text(Other("1")), QualityModes := Normal()];
    var common := Common(Parameters(f.machines), MACHINE_FIELDS);
    CommonIsShared(Parameters(f.machines), MACHINE_FIELDS, builtin);
    hide Shared, Common, Normal;
    assert common.Keys <= MACHINE_FIELDS by { forall k | k in common ensures k in MACHINE_FIELDS { CommonAt(Parameters(f.machines), MACHINE_FIELDS, k); } }
    assert MachineDefaults(f, faults) - {Breakdown} == builtin + common;
  }

  lemma CompressedMeans(s: Scene, f: Factory, faults: Faults)
    requires IsCompressed(s, f, faults)
    ensures Compressed(s, f, faults)
  {
    MachineDefaultsShared(f, faults);
    CommonIsShared(AgvParameters(f.agvs), AGV_PARAMETERS, AgvBuiltins());
    RoleStorage(f.buffers, MachinePre);
    RoleStorage(f.buffers, MachinePost);
    hide Shared, StorageOf, ItemOf, AgvItemOf, BufferItemOf, MachineDefaults, CompactMachine, CompactBuffer, Differs, Common, RoleDefault;
    forall k | 0 <= k < |s.machines| ensures ItemOf(s.machines[k], s.machineDefaults, f.machines[k], faults) {
      assert Compressible(f.machines[k]) && s.machines[k] == CompactMachine(s.machineDefaults, f.machines[k], faults);
      MachineCompacts(s.machineDefaults, f.machines[k], faults);
    }
    forall k | 0 <= k < |s.agvs| ensures AgvItemOf(s.agvs[k], s.agvDefaults, f.agvs[k]) { AgvCompacts(s.agvDefaults, f.agvs[k]); }
    forall k | 0 <= k < |s.buffers| ensures BufferItemOf(s.buffers[k], s.bufferDefaults[MachinePre], s.bufferDefaults[MachinePost], f.buffers[k]) {
      BufferCompacts(f.buffers, f.buffers[k]);
    }
  }

  lemma AgvCompacts(defaults: Fields, a: Agv)
    ensures AgvItemOf(CompactAgv(defaults, a), defaults, a)
  {
    DifferenceDiffers(defaults, a.parameters);
  }

  /** What loading a scene adds to it. */
  function Fill(s: Scene, breakdown: Fields): Scene {
    s.(machineDefaults := Merge(MachineBuiltins(breakdown), s.machineDefaults),
       agvDefaults := Merge(AgvBuiltins(), s.agvDefaults),
       bufferDefaults := Merge(BufferBuiltins(), s.bufferDefaults))
  }

  // -- expansion -------------------------------------------------------------------------------

  /** The rule a machine's `breakdown` field stands for; fields it leaves out are the domain's. */
  function RuleOf(parameters: Fields, builtin: Fields): Fields {
    if Breakdown in parameters && parameters[Breakdown].Mapping? then builtin + parameters[Breakdown].fields else builtin
  }

  predicate SwitchedOn(rule: Fields) {
    Get(rule, Enabled) != Flag(false)
  }

  /** A machine that names a known parameter only. */
  predicate Known(item: MachineItem) {
    item.overrides.Keys <= MACHINE_PARAMETERS
  }

  function ExpandMachine(defaults: Fields, item: MachineItem): Machine {
    Machine(item.id, item.name, [item.operation], item.x, item.y, 1, 1, 0, Merge(defaults, item.overrides) - {Breakdown})
  }

  function ExpandAgv(defaults: Fields, item: AgvItem): Agv {
    Agv(item.id, item.name, item.x, item.y, Merge(defaults, item.overrides))
  }

  function ExpandBuffer(defaults: Fields, b: Fields): Fields {
    var role := Get(b, Role);
    if role.Text? && role.text in defaults && defaults[role.text].Mapping? then Merge(defaults[role.text].fields, b) else b
  }

  /** Only storage defaults of machine buffers, and only known parameters. */
  predicate WellNamed(s: Scene) {
    && s.bufferDefaults.Keys <= {MachinePre, MachinePost}
    && (forall role :: role in s.bufferDefaults ==> s.bufferDefaults[role].Mapping? && s.bufferDefaults[role].fields.Keys <= {Storage})
    && s.machineDefaults.Keys <= MACHINE_PARAMETERS && s.agvDefaults.Keys <= AGV_PARAMETERS
    && (forall item :: item in s.machines ==> Known(item))
    && forall item :: item in s.agvs ==> item.overrides.Keys <= AGV_PARAMETERS
  }

  function ItemRule(s: Scene, item: MachineItem, builtin: Fields): Fields {
    RuleOf(Merge(s.machineDefaults, item.overrides), builtin)
  }

  /** The rules of the first `n` machines that differ from the default or are switched off. */
  function Collected(s: Scene, builtin: Fields, n: nat): map<string, Fields>
    requires n <= |s.machines|
  {
    if n == 0 then map[]
    else
      var rest, item := Collected(s, builtin, n - 1), s.machines[n - 1];
      var rule := ItemRule(s, item, builtin);
      if rule != RuleOf(s.machineDefaults, builtin) || !SwitchedOn(rule) then rest[item.id := rule] else rest
  }

  ghost predicate IsExpanded(s: Scene, builtin: Fields, f: Factory, faults: Faults) {
    && |f.machines| == |s.machines| && |f.agvs| == |s.agvs| && |f.buffers| == |s.buffers|
    && (forall k {:trigger f.machines[k]} :: 0 <= k < |f.machines| ==> f.machines[k] == ExpandMachine(s.machineDefaults, s.machines[k]))
    && (forall k {:trigger f.agvs[k]} :: 0 <= k < |f.agvs| ==> f.agvs[k] == ExpandAgv(s.agvDefaults, s.agvs[k]))
    && (forall k {:trigger f.buffers[k]} :: 0 <= k < |f.buffers| ==> f.buffers[k] == ExpandBuffer(s.bufferDefaults, s.buffers[k]))
    && faults == Faults(RuleOf(s.machineDefaults, builtin), Collected(s, builtin, |s.machines|))
  }

  // -- expansion, field by field -----------------------------------------------------------------

  /** Both are mappings, and the second names no mode or the first one's: then their fields are blended. */
  predicate BothMappings(a: Json, b: Json) {
    a.Mapping? && b.Mapping? && (Mode !in b.fields || b.fields[Mode] == if Mode in a.fields then a.fields[Mode] else Null)
  }

  /** Every field is the given one, or else the default; fields that are mappings on both sides are blended. */
  ghost predicate Blended(result: Fields, defaults: Fields, given: Fields)
    decreases Mapping(given)
  {
    && result.Keys == defaults.Keys + given.Keys
    && (forall k :: k in defaults && k !in given ==> k in result && result[k] == defaults[k])
    && forall k :: k in given && k in result ==>
         if k in defaults && BothMappings(defaults[k], given[k])
         then result[k].Mapping? && Blended(result[k].fields, defaults[k].fields, given[k].fields)
         else result[k] == given[k]
  }

  lemma {:induction false} MergeBlends(defaults: Fields, given: Fields)
    ensures Blended(Merge(defaults, given), defaults, given)
    decreases Mapping(given)
  {
    var result := Merge(defaults, given);
    forall k | k in given && k in result
      ensures if k in defaults && BothMappings(defaults[k], given[k])
              then result[k].Mapping? && Blended(result[k].fields, defaults[k].fields, given[k].fields)
              else result[k] == given[k]
    {
      if k in defaults && BothMappings(defaults[k], given[k]) {
        MergeBlends(defaults[k].fields, given[k].fields);
        assert result[k] == Mapping(Merge(defaults[k].fields, given[k].fields));
      }
    }
  }

  lemma {:induction false} BlendedIsUnique(a: Fields, b: Fields, defaults: Fields, given: Fields)
    requires Blended(a, defaults, given) && Blended(b, defaults, given)
    ensures a == b
    decreases Mapping(given)
  {
    forall k | k in a ensures k in b && a[k] == b[k] {
      if k in given && k in defaults && BothMappings(defaults[k], given[k]) {
        BlendedIsUnique(a[k].fields, b[k].fields, defaults[k].fields, given[k].fields);
      }
    }
  }

  /** The rule in the breakdown field, completed from the domain's own. */
  ghost predicate RuleIn(rule: Fields, parameters: Fields, builtin: Fields) {
    var given := if Breakdown in parameters && parameters[Breakdown].Mapping? then parameters[Breakdown].fields else map[];
    rule.Keys == builtin.Keys + given.Keys && forall k :: k in rule ==> rule[k] == if k in given then given[k] else builtin[k]
  }

  /** The machine of an item: one cell, upright, one operation, its parameters blended from the defaults. */
  ghost predicate MachineOf(m: Machine, defaults: Fields, item: MachineItem) {
    && m.id == item.id && m.name == item.name && m.operations == [item.operation] && m.x == item.x && m.y == item.y
    && m.width == 1 && m.height == 1 && m.rotation == 0
    && exists all: Fields :: Blended(all, defaults, item.overrides) && m.parameters.Keys == all.Keys - {Breakdown}
                             && forall k :: k in m.parameters ==> m.parameters[k] == all[k]
  }

  ghost predicate AgvOf(a: Agv, defaults: Fields, item: AgvItem) {
    a.id == item.id && a.name == item.name && a.x == item.x && a.y == item.y && Blended(a.parameters, defaults, item.overrides)
  }

  ghost predicate BufferOf(b: Fields, defaults: Fields, given: Fields) {
    if Role in given && given[Role].Text? && given[Role].text in defaults && defaults[given[Role].text].Mapping?
    then Blended(b, defaults[given[Role].text].fields, given) else b == given
  }

  /** The machine has this rule of its own: it is not the common one, or it is switched off. */
  ghost predicate OwnRule(s: Scene, builtin: Fields, i: nat, rule: Fields)
    requires i < |s.machines|
  {
    && (exists all: Fields :: Blended(all, s.machineDefaults, s.machines[i].overrides) && RuleIn(rule, all, builtin))
    && (!RuleIn(rule, s.machineDefaults, builtin) || (Enabled in rule && rule[Enabled] == Flag(false)))
  }

  /** No later one of the first `n` machines with this name has a rule of its own. */
  ghost predicate LastOwn(s: Scene, builtin: Fields, n: nat, i: nat, rule: Fields) {
    && i < n <= |s.machines| && OwnRule(s, builtin, i, rule)
    && forall k, other :: i < k < n && s.machines[k].id == s.machines[i].id ==> !OwnRule(s, builtin, k, other)
  }

  ghost predicate Owned(s: Scene, builtin: Fields, n: nat, id: string, rule: Fields) {
    exists i: nat :: LastOwn(s, builtin, n, i, rule) && s.machines[i].id == id
  }

  /** The single rules are those of the machines that have one; among machines of one name the last counts. */
  ghost predicate RulesOf(s: Scene, builtin: Fields, n: nat, rules: map<string, Fields>)
    requires n <= |s.machines|
  {
    && (forall id :: id in rules ==> Owned(s, builtin, n, id, rules[id]))
    && forall i, rule :: 0 <= i < n && OwnRule(s, builtin, i, rule) ==> s.machines[i].id in rules
  }

  /** What an expanded scene is. */
  ghost predicate Expanded(s: Scene, builtin: Fields, f: Factory, faults: Faults) {
    && |f.machines| == |s.machines| && |f.agvs| == |s.agvs| && |f.buffers| == |s.buffers|
    && (forall k {:trigger f.machines[k]} :: 0 <= k < |f.machines| ==> MachineOf(f.machines[k], s.machineDefaults, s.machines[k]))
    && (forall k {:trigger f.agvs[k]} :: 0 <= k < |f.agvs| ==> AgvOf(f.agvs[k], s.agvDefaults, s.agvs[k]))
    && (forall k {:trigger f.buffers[k]} :: 0 <= k < |f.buffers| ==> BufferOf(f.buffers[k], s.bufferDefaults, s.buffers[k]))
    && RuleIn(faults.rule, s.machineDefaults, builtin) && RulesOf(s, builtin, |s.machines|, faults.machines)
  }

  lemma RuleOfIsIn(parameters: Fields, builtin: Fields, rule: Fields)
    ensures RuleIn(rule, parameters, builtin) <==> rule == RuleOf(parameters, builtin)
  {
    assert RuleIn(RuleOf(parameters, builtin), parameters, builtin);
    if RuleIn(rule, parameters, builtin) { assert rule.Keys == RuleOf(parameters, builtin).Keys; }
  }

  lemma OwnRuleMeans(s: Scene, builtin: Fields, i: nat, rule: Fields)
    requires i < |s.machines|
    ensures OwnRule(s, builtin, i, rule) <==>
            var own := ItemRule(s, s.machines[i], builtin); rule == own && (own != RuleOf(s.machineDefaults, builtin) || !SwitchedOn(own))
  {
    var all := Merge(s.machineDefaults, s.machines[i].overrides);
    MergeBlends(s.machineDefaults, s.machines[i].overrides);
    RuleOfIsIn(all, builtin, rule);
    RuleOfIsIn(s.machineDefaults, builtin, rule);
    forall other: Fields | Blended(other, s.machineDefaults, s.machines[i].overrides) ensures other == all {
      BlendedIsUnique(other, all, s.machineDefaults, s.machines[i].overrides);
    }
    hide Blended, RuleIn, Merge, RuleOf;
  }

  /** The machine's own rule, if it has one. */
  function OwnOf(s: Scene, builtin: Fields, i: nat): (rule: map<string, Fields>)
    requires i < |s.machines|
  {
    var own := ItemRule(s, s.machines[i], builtin);
    if own != RuleOf(s.machineDefaults, builtin) || !SwitchedOn(own) then map[s.machines[i].id := own] else map[]
  }

  lemma OwnIs(s: Scene, builtin: Fields, i: nat, rule: Fields)
    requires i < |s.machines|
    ensures OwnRule(s, builtin, i, rule) <==> s.machines[i].id in OwnOf(s, builtin, i) && OwnOf(s, builtin, i)[s.machines[i].id] == rule
    ensures OwnOf(s, builtin, i).Keys <= {s.machines[i].id}
  {
    OwnRuleMeans(s, builtin, i, rule);
    hide OwnRule, ItemRule, RuleOf;
  }

  lemma CollectOne(s: Scene, builtin: Fields, n: nat)
    requires 0 < n <= |s.machines|
    ensures Collected(s, builtin, n) == Collected(s, builtin, n - 1) + OwnOf(s, builtin, n - 1)
  {
    hide ItemRule, RuleOf, SwitchedOn;
  }

  lemma StillOwned(s: Scene, builtin: Fields, last: nat, n: nat, id: string, rule: Fields)
    requires n == last + 1 <= |s.machines| && Owned(s, builtin, last, id, rule)
    requires id == s.machines[last].id ==> OwnOf(s, builtin, last) == map[]
    ensures Owned(s, builtin, n, id, rule)
  {
    var i: nat :| LastOwn(s, builtin, last, i, rule) && s.machines[i].id == id;
    forall k, other | i < k < n && s.machines[k].id == id ensures !OwnRule(s, builtin, k, other) {
      if k == last { OwnIs(s, builtin, last, other); }
    }
    assert LastOwn(s, builtin, n, i, rule);
  }

  lemma NewlyOwned(s: Scene, builtin: Fields, last: nat, n: nat)
    requires n == last + 1 <= |s.machines|
    ensures var own, id := OwnOf(s, builtin, last), s.machines[last].id; own.Keys <= {id} && (id in own ==> Owned(s, builtin, n, id, own[id]))
  {
    var own, id := OwnOf(s, builtin, last), s.machines[last].id;
    OwnIs(s, builtin, last, map[]);
    if id in own {
      OwnIs(s, builtin, last, own[id]);
      assert LastOwn(s, builtin, n, last, own[id]);
    }
  }

  lemma MoreRules(s: Scene, builtin: Fields, last: nat, n: nat, rules: map<string, Fields>, more: map<string, Fields>)
    requires n == last + 1 <= |s.machines| && RulesOf(s, builtin, last, rules) && more == rules + OwnOf(s, builtin, last)
    ensures RulesOf(s, builtin, n, more)
  {
    var own, id := OwnOf(s, builtin, last), s.machines[last].id;
    NewlyOwned(s, builtin, last, n);
    hide OwnRule, OwnOf, Owned;
    forall x | x in more ensures Owned(s, builtin, n, x, more[x]) {
      if x !in own { StillOwned(s, builtin, last, n, x, more[x]); }
    }
    forall i, rule | 0 <= i < n && OwnRule(s, builtin, i, rule) ensures s.machines[i].id in more { if i == last { OwnIs(s, builtin, last, rule); } }
  }

  lemma NoRules(s: Scene, builtin: Fields)
    ensures RulesOf(s, builtin, 0, map[]) && Collected(s, builtin, 0) == map[]
  {
  }

  lemma {:induction false} CollectedRules(s: Scene, builtin: Fields, n: nat)
    requires n <= |s.machines|
    ensures RulesOf(s, builtin, n, Collected(s, builtin, n))
  {
    hide *;
    NoRules(s, builtin);
    if n > 0 {
      CollectedRules(s, builtin, n - 1);
      CollectOne(s, builtin, n);
      MoreRules(s, builtin, n - 1, n, Collected(s, builtin, n - 1), Collected(s, builtin, n));
    }
  }

  lemma ExpandedMeans(s: Scene, builtin: Fields, f: Factory, faults: Faults)
    requires IsExpanded(s, builtin, f, faults)
    ensures Expanded(s, builtin, f, faults)
  {
    forall k | 0 <= k < |f.machines| ensures MachineOf(f.machines[k], s.machineDefaults, s.machines[k]) {
      MergeBlends(s.machineDefaults, s.machines[k].overrides);
      assert f.machines[k] == ExpandMachine(s.machineDefaults, s.machines[k]);
    }
    forall k | 0 <= k < |f.agvs| ensures AgvOf(f.agvs[k], s.agvDefaults, s.agvs[k]) { MergeBlends(s.agvDefaults, s.agvs[k].overrides); }
    forall k | 0 <= k < |f.buffers| ensures BufferOf(f.buffers[k], s.bufferDefaults, s.buffers[k]) {
      var role := Get(s.buffers[k], Role);
      if role.Text? && role.text in s.bufferDefaults && s.bufferDefaults[role.text].Mapping? {
        MergeBlends(s.bufferDefaults[role.text].fields, s.buffers[k]);
      }
    }
    RuleOfIsIn(s.machineDefaults, builtin, faults.rule);
    CollectedRules(s, builtin, |s.machines|);
    hide Blended, Merge, RulesOf, RuleOf;
  }

  method ExpandMachines(s: Scene, builtin: Fields) returns (machines: seq<Machine>, faults: map<string, Fields>, known: bool)
    ensures known <==> forall item :: item in s.machines ==> Known(item)
    ensures known ==> |machines| == |s.machines| && faults == Collected(s, builtin, |s.machines|)
    ensures known ==> forall k {:trigger machines[k]} :: 0 <= k < |machines| ==> machines[k] == ExpandMachine(s.machineDefaults, s.machines[k])
  {
    machines, faults, known := [], map[], true;
    for i := 0 to |s.machines|
      invariant forall k :: 0 <= k < i ==> Known(s.machines[k])
      invariant |machines| == i && faults == Collected(s, builtin, i)
      invariant forall k {:trigger machines[k]} :: 0 <= k < i ==> machines[k] == ExpandMachine(s.machineDefaults, s.machines[k])
    {
      hide *;
      var item := s.machines[i];
      if !Known(item) {
        assert item in s.machines;
        known := false;
        return;
      }
      var effective := MergeFields(s.machineDefaults, item.overrides);
      ExpandedItem(s, builtin, i, effective);
      var rule := RuleOf(effective, builtin);
      if rule != RuleOf(s.machineDefaults, builtin) || !SwitchedOn(rule) { faults := faults[item.id := rule]; }
      machines := machines + [Machine(item.id, item.name, [item.operation], item.x, item.y, 1, 1, 0, effective - {Breakdown})];
    }
  }

  /** One machine of the expansion: its record, and its rule if that is kept apart. */
  lemma ExpandedItem(s: Scene, builtin: Fields, i: nat, effective: Fields)
    requires i < |s.machines| && effective == Merge(s.machineDefaults, s.machines[i].overrides)
    ensures var item, rule := s.machines[i], RuleOf(effective, builtin);
            && Machine(item.id, item.name, [item.operation], item.x, item.y, 1, 1, 0, effective - {Breakdown}) == ExpandMachine(s.machineDefaults, item)
            && Collected(s, builtin, i + 1) == if rule != RuleOf(s.machineDefaults, builtin) || !SwitchedOn(rule)
                                               then Collected(s, builtin, i)[item.id := rule] else Collected(s, builtin, i)
  {
    hide Merge, RuleOf, SwitchedOn;
  }

  method ExpandAgvs(s: Scene) returns (agvs: seq<Agv>)
    ensures |agvs| == |s.agvs| && forall k {:trigger agvs[k]} :: 0 <= k < |agvs| ==> agvs[k] == ExpandAgv(s.agvDefaults, s.agvs[k])
  {
    agvs := [];
    for i := 0 to |s.agvs|
      invariant |agvs| == i && forall k {:trigger agvs[k]} :: 0 <= k < i ==> agvs[k] == ExpandAgv(s.agvDefaults, s.agvs[k])
    {
      var effective := MergeFields(s.agvDefaults, s.agvs[i].overrides);
      agvs := agvs + [Agv(s.agvs[i].id, s.agvs[i].name, s.agvs[i].x, s.agvs[i].y, effective)];
    }
  }

  method ExpandBuffers(s: Scene) returns (buffers: seq<Fields>)
    ensures |buffers| == |s.buffers|
    ensures forall k {:trigger buffers[k]} :: 0 <= k < |buffers| ==> buffers[k] == ExpandBuffer(s.bufferDefaults, s.buffers[k])
  {
    buffers := [];
    for i := 0 to |s.buffers|
      invariant |buffers| == i && forall k {:trigger buffers[k]} :: 0 <= k < i ==> buffers[k] == ExpandBuffer(s.bufferDefaults, s.buffers[k])
    {
      buffers := buffers + [ExpandBuffer(s.bufferDefaults, s.buffers[i])];
    }
  }

  /** `expand`: refuses unknown fields. */
  method Expand(s: Scene, builtin: Fields) returns (result: Result<(Factory, Faults)>)
    ensures result.Ok? <==> WellNamed(s)
    ensures result.Ok? ==> IsExpanded(s, builtin, result.value.0, result.value.1) && Expanded(s, builtin, result.value.0, result.value.1)
  {
    hide Expanded, ExpandMachine, ExpandAgv, ExpandBuffer, Collected, RuleOf;
    if !(s.bufferDefaults.Keys <= {MachinePre, MachinePost}) { return Failed(UnknownField); }
    if exists role :: role in s.bufferDefaults && !(s.bufferDefaults[role].Mapping? && s.bufferDefaults[role].fields.Keys <= {Storage}) {
      return Failed(UnknownField);
    }
    if !(s.machineDefaults.Keys <= MACHINE_PARAMETERS && s.agvDefaults.Keys <= AGV_PARAMETERS) { return Failed(UnknownField); }
    if exists item :: item in s.agvs && !(item.overrides.Keys <= AGV_PARAMETERS) { return Failed(UnknownField); }
    var machines, faults, known := ExpandMachines(s, builtin);
    if !known { return Failed(UnknownField); }
    var agvs := ExpandAgvs(s);
    var buffers := ExpandBuffers(s);
    result := Ok((Factory(machines, agvs, buffers), Faults(RuleOf(s.machineDefaults, builtin), faults)));
    ExpandedMeans(s, builtin, result.value.0, result.value.1);
  }

  // -- factories that have the fields their types give them ----------------------------------------

  predicate Flat(fields: Fields) {
    forall k :: k in fields ==> !fields[k].Mapping?
  }

  predicate MachineFields(parameters: Fields) {
    parameters.Keys == MACHINE_FIELDS && Flat(parameters) && forall k :: k in parameters ==> parameters[k] != Null
  }

  const BATTERY_FIELDS: set<Key> := {EnergyCapacity, InitialEnergy, MoveEnergy, IdleEnergy}

  predicate AgvFields(parameters: Fields) {
    && parameters.Keys == AGV_PARAMETERS
    && forall k :: k in parameters ==>
         if parameters[k].Mapping? then k == Battery && parameters[k].fields.Keys == BATTERY_FIELDS && Flat(parameters[k].fields)
         else true
  }

  /** A pool with its capacity or a list of slots. */
  predicate StorageFields(storage: Json) {
    && storage.Mapping? && Flat(storage.fields)
    && ((storage.fields.Keys == {Mode, Capacity} && storage.fields[Mode] == Text(Pool))
        || (storage.fields.Keys == {Mode, Slots} && storage.fields[Mode] == Text(Slots)))
  }

  predicate BufferFields(b: Fields) {
    Role in b && b[Role].Text? && Storage in b && StorageFields(b[Storage])
  }

  predicate Distribution(value: Json) {
    value.Mapping? && value.fields.Keys == {Scale, Lower, Upper} && Flat(value.fields)
  }

  /** `MachineFaults` */
  predicate RuleFields(rule: Fields) {
    && rule.Keys == {Enabled, Intervals, Repair} && rule[Enabled].Flag? && Distribution(rule[Repair])
    && rule[Intervals].Mapping? && rule[Intervals].fields.Keys == {Low, Medium, High}
    && forall k :: k in rule[Intervals].fields ==> Distribution(rule[Intervals].fields[k])
  }

  ghost predicate WellTyped(f: Factory, faults: Faults, builtin: Fields) {
    && (forall m :: m in f.machines ==> MachineFields(m.parameters))
    && (forall a :: a in f.agvs ==> AgvFields(a.parameters))
    && (forall b :: b in f.buffers ==> BufferFields(b))
    && RuleFields(builtin) && RuleFields(faults.rule) && faults.rule[Enabled] == Flag(true)
    && forall id :: id in faults.machines ==> RuleFields(faults.machines[id])
  }

  lemma FlatCovers(a: Fields, b: Fields)
    requires a.Keys <= b.Keys && Flat(b)
    ensures Covers(b, a)
  {
  }

  lemma CoversIf(a: Fields, b: Fields)
    requires a.Keys <= b.Keys
    requires forall k :: k in a && Recurses(a[k], b[k]) ==> Covers(b[k].fields, a[k].fields)
    ensures Covers(b, a)
  {
  }

  lemma IntervalsCover(a: Fields, b: Fields)
    requires a.Keys == b.Keys && forall k :: k in a ==> Distribution(a[k]) && Distribution(b[k])
    ensures Covers(b, a)
  {
    hide Covers, Recurses;
    forall k | k in a ensures Covers(b[k].fields, a[k].fields) { FlatCovers(a[k].fields, b[k].fields); }
    CoversIf(a, b);
  }

  lemma RuleParts(r: Fields)
    requires RuleFields(r)
    ensures r.Keys == {Enabled, Intervals, Repair} && r[Intervals].Mapping? && r[Repair].Mapping?
    ensures r[Repair].fields.Keys == {Scale, Lower, Upper} && Flat(r[Repair].fields)
    ensures r[Intervals].fields.Keys == {Low, Medium, High}
    ensures forall k :: k in r[Intervals].fields ==> Distribution(r[Intervals].fields[k])
    ensures forall x: Json :: !Recurses(r[Enabled], x)
  {
  }

  lemma RuleCovers(a: Fields, b: Fields)
    requires RuleFields(a) && RuleFields(b)
    ensures Covers(b, a)
  {
    hide *;
    RuleParts(a);
    RuleParts(b);
    IntervalsCover(a[Intervals].fields, b[Intervals].fields);
    FlatCovers(a[Repair].fields, b[Repair].fields);
    forall k | k in a && Recurses(a[k], b[k]) ensures Covers(b[k].fields, a[k].fields) {
      assert k == Intervals || k == Repair;
    }
    CoversIf(a, b);
  }

  lemma StorageCovers(a: Json, b: Json)
    requires StorageFields(a) && StorageFields(b)
    ensures Recurses(a, b) ==> Covers(b.fields, a.fields)
  {
    hide Covers;
    if Recurses(a, b) { FlatCovers(a.fields, b.fields); }
  }

  /** The rule that applies to a machine. */
  function EffectiveRule(faults: Faults, id: string): Fields {
    if id in faults.machines then faults.machines[id] else faults.rule
  }

  // -- the round trip --------------------------------------------------------------------------

  /** Defaults whose only mapping is the fault rule. */
  predicate MachineDefaultFields(d: Fields, rule: Fields) {
    d.Keys == MACHINE_PARAMETERS && d[Breakdown] == Mapping(rule) && !d[ProcessingRate].Mapping? && !d[QualityModes].Mapping?
  }

  lemma CommonFlat(machines: seq<Machine>)
    requires forall m :: m in machines ==> MachineFields(m.parameters)
    ensures var c := Common(Parameters(machines), MACHINE_FIELDS); c.Keys <= MACHINE_FIELDS && Flat(c)
  {
    hide Common, Values;
    var c := Common(Parameters(machines), MACHINE_FIELDS);
    forall k | k in c ensures k in MACHINE_FIELDS && !c[k].Mapping? {
      CommonAt(Parameters(machines), MACHINE_FIELDS, k);
      var i :| 0 <= i < |machines| && k in machines[i].parameters && machines[i].parameters[k] == c[k];
      assert machines[i] in machines;
    }
  }

  lemma MachineDefaultsAre(f: Factory, faults: Faults, builtin: Fields)
    requires WellTyped(f, faults, builtin)
    ensures MachineDefaultFields(MachineDefaults(f, faults), faults.rule)
    ensures Merge(MachineBuiltins(builtin), MachineDefaults(f, faults)) == MachineDefaults(f, faults)
  {
    hide Covers, Merge, Common, RuleFields;
    CommonFlat(f.machines);
    var d := MachineDefaults(f, faults);
    assert MachineDefaultFields(d, faults.rule);
    RuleCovers(builtin, faults.rule);
    CoversIf(MachineBuiltins(builtin), d);
    MergeReplaces(MachineBuiltins(builtin), d);
  }

  lemma MachineReturns(d: Fields, m: Machine, faults: Faults)
    requires MachineDefaultFields(d, faults.rule) && MachineFields(m.parameters) && Compressible(m) && RuleFields(faults.rule)
    requires m.id in faults.machines ==> RuleFields(faults.machines[m.id])
    ensures var item := CompactMachine(d, m, faults);
            Known(item) && ExpandMachine(d, item) == m.(rotation := 0)
            && Get(Merge(d, item.overrides), Breakdown) == Mapping(EffectiveRule(faults, m.id))
  {
    hide RuleFields, Covers, SwitchedOn, Merge;
    var item := CompactMachine(d, m, faults);
    var merged := Merge(d, item.overrides);
    if m.id in faults.machines {
      RuleCovers(faults.rule, faults.machines[m.id]);
      MergeReplaces(faults.rule, faults.machines[m.id]);
    }
    MergeAt(d, item.overrides, Breakdown);
    MergeAt(d, item.overrides, ProcessingRate);
    MergeAt(d, item.overrides, QualityModes);
    assert merged - {Breakdown} == m.parameters;
    assert m.operations == [m.operations[0]];
  }

  /** One field of a merge. */
  lemma MergeAt(defaults: Fields, overrides: Fields, k: Key)
    ensures Merge(defaults, overrides).Keys == defaults.Keys + overrides.Keys
    ensures k in overrides && k in defaults && Recurses(defaults[k], overrides[k]) ==>
              Merge(defaults, overrides)[k] == Mapping(Merge(defaults[k].fields, overrides[k].fields))
    ensures k in overrides && !(k in defaults && Recurses(defaults[k], overrides[k])) ==> Merge(defaults, overrides)[k] == overrides[k]
    ensures k in defaults && k !in overrides ==> Merge(defaults, overrides)[k] == defaults[k]
  {
  }

  /** Defaults whose only mapping is a battery. */
  lemma AgvDefaultsAre(f: Factory)
    requires forall a :: a in f.agvs ==> AgvFields(a.parameters)
    ensures AgvFields(AgvDefaults(f)) && Merge(AgvBuiltins(), AgvDefaults(f)) == AgvDefaults(f)
  {
    hide Covers, Merge, Common;
    var shared := Common(AgvParameters(f.agvs), AGV_PARAMETERS);
    forall k | k in shared ensures k in AGV_PARAMETERS && (shared[k].Mapping? ==> k == Battery && shared[k].fields.Keys == BATTERY_FIELDS && Flat(shared[k].fields)) {
      CommonAt(AgvParameters(f.agvs), AGV_PARAMETERS, k);
      var i :| 0 <= i < |f.agvs| && k in f.agvs[i].parameters && f.agvs[i].parameters[k] == shared[k];
      assert f.agvs[i] in f.agvs && AgvFields(f.agvs[i].parameters);
    }
    CoversIf(AgvBuiltins(), AgvDefaults(f));
    MergeReplaces(AgvBuiltins(), AgvDefaults(f));
  }

  lemma AgvReturns(d: Fields, a: Agv)
    requires AgvFields(d) && AgvFields(a.parameters)
    ensures CompactAgv(d, a).overrides.Keys <= AGV_PARAMETERS && ExpandAgv(d, CompactAgv(d, a)) == a
  {
    hide Covers, Merge;
    if Recurses(d[Battery], a.parameters[Battery]) { FlatCovers(d[Battery].fields, a.parameters[Battery].fields); }
    MergeDifferenceExactly(d, a.parameters);
  }

  /** A machine buffer's default: its role's most common storage, or a pool of four. */
  lemma RoleDefaultIs(buffers: seq<Fields>, role: Key)
    requires forall b :: b in buffers ==> BufferFields(b)
    ensures var d := RoleDefault(buffers, role); d.Keys == {Storage} && StorageFields(d[Storage]) && Merge(PoolOfFour(), d) == d
  {
    hide Covers, Merge, Common;
    var d := RoleDefault(buffers, role);
    var group := Group(buffers, role);
    CommonAt(group, {Storage}, Storage);
    var shared := Common(group, {Storage});
    forall k | k in shared ensures k == Storage { CommonAt(group, {Storage}, k); }
    if shared != map[] {
      assert Storage in shared by { assert exists k :: k in shared; }
      var i :| 0 <= i < |group| && Storage in group[i] && group[i][Storage] == shared[Storage];
      assert group[i] in group && BufferFields(group[i]);
    }
    assert StorageFields(PoolOfFour()[Storage]);
    StorageCovers(PoolOfFour()[Storage], d[Storage]);
    CoversIf(PoolOfFour(), d);
    MergeReplaces(PoolOfFour(), d);
  }

  lemma BufferDefaultsAre(buffers: seq<Fields>)
    requires forall b :: b in buffers ==> BufferFields(b)
    ensures BufferDefaultFields(BufferDefaults(buffers)) && Merge(BufferBuiltins(), BufferDefaults(buffers)) == BufferDefaults(buffers)
  {
    hide Covers, Merge, RoleDefault, StorageFields;
    var d := BufferDefaults(buffers);
    RoleDefaultIs(buffers, MachinePre);
    RoleDefaultIs(buffers, MachinePost);
    MergeReplaces(PoolOfFour(), RoleDefault(buffers, MachinePre));
    MergeReplaces(PoolOfFour(), RoleDefault(buffers, MachinePost));
    CoversIf(BufferBuiltins(), d);
    MergeReplaces(BufferBuiltins(), d);
  }

  predicate BufferDefaultFields(d: Fields) {
    d.Keys == {MachinePre, MachinePost} && forall role :: role in d ==>
      d[role].Mapping? && d[role].fields.Keys == {Storage} && StorageFields(d[role].fields[Storage])
  }

  lemma BufferReturns(d: Fields, b: Fields)
    requires BufferDefaultFields(d) && BufferFields(b)
    ensures ExpandBuffer(d, CompactBuffer(d, b)) == b
  {
    hide Covers, Merge, StorageFields;
    var role := b[Role].text;
    if role in d {
      var default := d[role].fields;
      if b[Storage] == default[Storage] {
        var rest := b - {Storage};
        assert rest[Role] == b[Role];
        forall k | k in b ensures k in Merge(default, rest) && Merge(default, rest)[k] == b[k] { MergeAt(default, rest, k); }
        MergeAt(default, rest, Storage);
        assert Merge(default, rest) == b;
      } else {
        StorageCovers(default[Storage], b[Storage]);
        CoversIf(default, b);
        MergeReplaces(default, b);
      }
    }
  }

  ghost predicate Named(s: Scene, n: nat, id: string)
    requires n <= |s.machines|
  {
    exists k :: 0 <= k < n && s.machines[k].id == id
  }

  lemma NamedMore(s: Scene, n: nat, id: string)
    requires 0 < n <= |s.machines|
    ensures Named(s, n, id) <==> Named(s, n - 1, id) || s.machines[n - 1].id == id
  {
  }

  /** The fault rules that are kept apart: those of the scene's machines that differ from the common one. */
  lemma {:induction false} FaultsReturn(s: Scene, faults: Faults, builtin: Fields, n: nat, id: string)
    requires n <= |s.machines| && RuleOf(s.machineDefaults, builtin) == faults.rule && SwitchedOn(faults.rule)
    requires forall k {:trigger s.machines[k]} :: 0 <= k < |s.machines| ==> ItemRule(s, s.machines[k], builtin) == EffectiveRule(faults, s.machines[k].id)
    ensures id in Collected(s, builtin, n) <==> EffectiveRule(faults, id) != faults.rule && Named(s, n, id)
    ensures id in Collected(s, builtin, n) ==> Collected(s, builtin, n)[id] == EffectiveRule(faults, id)
  {
    hide RuleOf, ItemRule, EffectiveRule, SwitchedOn, Named;
    if n > 0 {
      FaultsReturn(s, faults, builtin, n - 1, id);
      NamedMore(s, n, id);
      var item := s.machines[n - 1];
      assert ItemRule(s, item, builtin) == EffectiveRule(faults, item.id);
    } else {
      NoneNamed(s, id);
    }
  }

  lemma NoneNamed(s: Scene, id: string)
    ensures !Named(s, 0, id)
  {
  }

  function Unrotated(m: Machine): Machine {
    m.(rotation := 0)
  }

  /** Loading adds nothing to a compressed scene. */
  lemma FillKeeps(s: Scene, f: Factory, faults: Faults, builtin: Fields)
    requires WellTyped(f, faults, builtin) && IsCompressed(s, f, faults)
    ensures Fill(s, builtin) == s
    ensures MachineDefaultFields(s.machineDefaults, faults.rule) && AgvFields(s.agvDefaults) && BufferDefaultFields(s.bufferDefaults)
  {
    hide MachineDefaults, AgvDefaults, BufferDefaults, CompactMachine, CompactAgv, CompactBuffer, Merge;
    MachineDefaultsAre(f, faults, builtin);
    AgvDefaultsAre(f);
    BufferDefaultsAre(f.buffers);
  }

  lemma ItemReturns(s: Scene, f: Factory, faults: Faults, builtin: Fields, k: nat)
    requires WellTyped(f, faults, builtin) && IsCompressed(s, f, faults) && k < |f.machines|
    requires MachineDefaultFields(s.machineDefaults, faults.rule)
    ensures Known(s.machines[k]) && ExpandMachine(s.machineDefaults, s.machines[k]) == Unrotated(f.machines[k])
    ensures ItemRule(s, s.machines[k], builtin) == EffectiveRule(faults, f.machines[k].id) && s.machines[k].id == f.machines[k].id
  {
    hide MachineDefaults, AgvDefaults, BufferDefaults, RuleFields, MachineFields, MachineDefaultFields, ExpandMachine, Merge, Known;
    var m, item := f.machines[k], s.machines[k];
    assert m in f.machines && item == CompactMachine(s.machineDefaults, m, faults);
    MachineReturns(s.machineDefaults, m, faults);
    EffectiveIsRule(faults, m.id);
    RuleIs(Merge(s.machineDefaults, item.overrides), EffectiveRule(faults, m.id), builtin);
  }

  lemma EffectiveIsRule(faults: Faults, id: string)
    requires RuleFields(faults.rule) && forall id :: id in faults.machines ==> RuleFields(faults.machines[id])
    ensures RuleFields(EffectiveRule(faults, id))
  {
  }

  lemma RuleIs(parameters: Fields, rule: Fields, builtin: Fields)
    requires Get(parameters, Breakdown) == Mapping(rule) && RuleFields(rule) && RuleFields(builtin)
    ensures RuleOf(parameters, builtin) == rule
  {
    hide RuleFields;
    RuleParts(rule);
    RuleParts(builtin);
    Replaced(builtin, rule);
  }

  lemma Replaced(a: Fields, b: Fields)
    requires a.Keys == b.Keys
    ensures a + b == b
  {
  }

  /** What comes back: every resource with its parameters, machines without rotation, the common fault
      rule, and of the single rules those that differ from it. */
  ghost predicate Returned(f: Factory, faults: Faults, again: Factory, rules: Faults) {
    && |again.machines| == |f.machines| && (forall k {:trigger again.machines[k]} :: 0 <= k < |f.machines| ==> again.machines[k] == Unrotated(f.machines[k]))
    && again.agvs == f.agvs && again.buffers == f.buffers && rules.rule == faults.rule
    && (forall id :: id in rules.machines <==> IsMachine(f, id) && EffectiveRule(faults, id) != faults.rule)
    && forall id :: id in rules.machines ==> rules.machines[id] == EffectiveRule(faults, id)
  }

  ghost predicate IsMachine(f: Factory, id: string) {
    exists k :: 0 <= k < |f.machines| && f.machines[k].id == id
  }

  /** Expanding a compressed factory succeeds and gives it back. */
  lemma RoundTrip(s: Scene, f: Factory, faults: Faults, builtin: Fields)
    requires WellTyped(f, faults, builtin) && IsCompressed(s, f, faults)
    ensures Fill(s, builtin) == s && WellNamed(s)
    ensures forall again, rules :: IsExpanded(s, builtin, again, rules) ==> Returned(f, faults, again, rules)
  {
    FillKeeps(s, f, faults, builtin);
    CompressedIsNamed(s, f, faults, builtin);
    forall again, rules | IsExpanded(s, builtin, again, rules) ensures Returned(f, faults, again, rules) {
      ExpandedReturns(s, f, faults, builtin, again, rules);
    }
  }

  lemma CompressedIsNamed(s: Scene, f: Factory, faults: Faults, builtin: Fields)
    requires WellTyped(f, faults, builtin) && IsCompressed(s, f, faults)
    requires MachineDefaultFields(s.machineDefaults, faults.rule) && AgvFields(s.agvDefaults) && BufferDefaultFields(s.bufferDefaults)
    ensures WellNamed(s)
  {
    hide MachineDefaults, AgvDefaults, BufferDefaults, CompactMachine, CompactAgv, CompactBuffer, Known, RuleFields, StorageFields, MachineFields, ExpandMachine, ExpandAgv;
    forall k | 0 <= k < |s.machines| ensures Known(s.machines[k]) { ItemReturns(s, f, faults, builtin, k); }
    forall k | 0 <= k < |s.agvs| ensures s.agvs[k].overrides.Keys <= AGV_PARAMETERS {
      assert f.agvs[k] in f.agvs;
      AgvReturns(s.agvDefaults, f.agvs[k]);
    }
  }

  lemma ExpandedReturns(s: Scene, f: Factory, faults: Faults, builtin: Fields, again: Factory, rules: Faults)
    requires WellTyped(f, faults, builtin) && IsCompressed(s, f, faults) && IsExpanded(s, builtin, again, rules)
    requires MachineDefaultFields(s.machineDefaults, faults.rule) && AgvFields(s.agvDefaults) && BufferDefaultFields(s.bufferDefaults)
    ensures Returned(f, faults, again, rules)
  {
    hide MachineDefaults, AgvDefaults, BufferDefaults, CompactMachine, CompactAgv, CompactBuffer, Known, RuleFields, StorageFields,
         MachineFields, AgvFields, BufferFields, ExpandMachine, ExpandAgv, ExpandBuffer, Collected, ItemRule, RuleOf, EffectiveRule;
    forall k | 0 <= k < |f.machines|
      ensures again.machines[k] == Unrotated(f.machines[k])
      ensures s.machines[k].id == f.machines[k].id && ItemRule(s, s.machines[k], builtin) == EffectiveRule(faults, f.machines[k].id)
    {
      ItemReturns(s, f, faults, builtin, k);
    }
    forall k | 0 <= k < |f.agvs| ensures again.agvs[k] == f.agvs[k] {
      assert f.agvs[k] in f.agvs;
      AgvReturns(s.agvDefaults, f.agvs[k]);
    }
    forall k | 0 <= k < |f.buffers| ensures again.buffers[k] == f.buffers[k] {
      assert f.buffers[k] in f.buffers;
      BufferReturns(s.bufferDefaults, f.buffers[k]);
    }
    RuleIs(s.machineDefaults, faults.rule, builtin);
    forall id
      ensures id in rules.machines <==> IsMachine(f, id) && EffectiveRule(faults, id) != faults.rule
      ensures id in rules.machines ==> rules.machines[id] == EffectiveRule(faults, id)
    {
      FaultsReturn(s, faults, builtin, |s.machines|, id);
      assert Named(s, |s.machines|, id) <==> IsMachine(f, id);
    }
  }

  /** The whole way: it comes back unchanged exactly when no machine is rotated and every single rule
      is one of a machine and not the common one. */
  lemma UnchangedExactly(f: Factory, faults: Faults, again: Factory, rules: Faults)
    requires Returned(f, faults, again, rules)
    ensures again == f <==> forall m :: m in f.machines ==> m.rotation == 0
    ensures rules == faults <==> forall id :: id in faults.machines ==> IsMachine(f, id) && faults.machines[id] != faults.rule
    ensures forall id :: IsMachine(f, id) ==> EffectiveRule(rules, id) == EffectiveRule(faults, id)
  {
    if again == f {
      forall m | m in f.machines ensures m.rotation == 0 {
        var k :| 0 <= k < |f.machines| && f.machines[k] == m;
        assert again.machines[k] == Unrotated(f.machines[k]);
      }
    }
    if forall m :: m in f.machines ==> m.rotation == 0 {
      forall k | 0 <= k < |f.machines| ensures again.machines[k] == f.machines[k] { assert f.machines[k] in f.machines; }
      assert again.machines == f.machines;
    }
    if forall id :: id in faults.machines ==> IsMachine(f, id) && faults.machines[id] != faults.rule {
      assert rules.machines == faults.machines;
    }
    if rules == faults {
      forall id | id in faults.machines ensures IsMachine(f, id) && faults.machines[id] != faults.rule { assert id in rules.machines; }
    }
  }

  function AnyTicks(): Json {
    Mapping(map[Scale := Number(1), Lower := Number(1), Upper := Number(9)])
  }

  function PlainRule(): Fields {
    map[Enabled := Flag(true), Intervals := Mapping(map[Low := AnyTicks(), Medium := AnyTicks(), High := AnyTicks()]), Repair := AnyTicks()]
  }

  function Drill(rotation: int): Machine {
    Machine("drill", "Drill", ["drill"], 0, 0, 1, 1, rotation, map[ProcessingRate := Text(Other("1")), QualityModes := Normal()])
  }

  lemma PlainIsTyped(rule: Fields)
    requires rule == PlainRule()
    ensures RuleFields(rule) && rule[Enabled] == Flag(true)
  {
  }

  /** Any turned machine with a rule of its own that repeats the common one is saved and loaded, and
      comes back straight and without the rule. */
  lemma RotationAndRuleLost(m: Machine, rule: Fields)
    requires Compressible(m) && MachineFields(m.parameters) && m.rotation != 0 && RuleFields(rule) && rule[Enabled] == Flag(true)
    ensures var f, faults := Factory([m], [], []), Faults(rule, map[m.id := rule]);
            var again, rules := Factory([Unrotated(m)], [], []), Faults(rule, map[]);
            && WellTyped(f, faults, rule) && (forall x :: x in f.machines ==> Compressible(x))
            && Returned(f, faults, again, rules) && again != f && rules != faults
  {
    assert Unrotated(m).rotation == 0;
    hide MachineFields, Compressible, RuleFields, Unrotated;
    var f, faults := Factory([m], [], []), Faults(rule, map[m.id := rule]);
    assert f.machines[0] == m && m.id in faults.machines;
  }

  /** There is such a machine and such a rule. */
  lemma TurnedDrill()
    ensures var m, rule := Drill(90), PlainRule();
            Compressible(m) && MachineFields(m.parameters) && m.rotation != 0 && RuleFields(rule) && rule[Enabled] == Flag(true)
  {
    PlainIsTyped(PlainRule());
    hide PlainRule, RuleFields;
  }

  /** Save a factory as a scene and load it again. */
  method SaveAndLoad(f: Factory, faults: Faults, builtin: Fields) returns (result: Result<(Factory, Faults)>)
    requires WellTyped(f, faults, builtin)
    ensures result.Ok? <==> forall m :: m in f.machines ==> Compressible(m)
    ensures result.Ok? ==> Returned(f, faults, result.value.0, result.value.1)
  {
    hide *;
    var saved := FromFactory(f, faults);
    if saved.Failed? { return Failed(saved.error); }
    RoundTrip(saved.value, f, faults, builtin);
    result := Expand(Fill(saved.value, builtin), builtin);
  }
}
