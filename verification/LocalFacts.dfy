/** The read phase of the reservation protocol: inside it, inventories, reservations and pickup credits
    are computed once. Every cached answer is the one the uncached query would give. */
module LocalFacts {
  import opened Collections
  import opened Factory
  import opened Safety
  import opened Checks
  import Engine

  datatype Credit = Credit(physical: nat, started: nat, committed: nat, free: int)

  datatype Facts = Facts(
    items: map<BufferId, seq<JobId>>, credits: map<BufferId, Credit>,
    ready: map<BufferId, set<JobId>>, commitments: map<BufferId, seq<AgvId>>)

  /** `post_credit_components` of a POST without any cache. */
  function CreditOf(c: Scenario, s: State, b: BufferId): Credit
    requires WellFormed(c) && b in c.buffers && c.buffers[b].role.Post?
  {
    assert GoodBuffer(c, b);
    var physical, started, committed := |SetOf(Items(c, s, b))|, Started(c, s, c.buffers[b].role.machine), |Commitments(s, b, c.agvIds)|;
    Credit(physical, started, committed, physical + started - committed)
  }

  /** `ready` without any cache. */
  function Loadable(c: Scenario, s: State, b: BufferId): set<JobId>
    requires b in c.buffers
  {
    if c.buffers[b].role.Pre? || c.buffers[b].role.Output? then {} else Engine.ReadyJobs(s, b)
  }

  /** Every entry is what the plain query gives in this state. */
  ghost predicate True(c: Scenario, s: State, f: Facts)
    requires WellFormed(c)
  {
    && (forall b :: b in f.items ==> b in c.buffers && f.items[b] == Items(c, s, b))
    && (forall b :: b in f.credits ==> b in c.buffers && c.buffers[b].role.Post? && f.credits[b] == CreditOf(c, s, b))
    && (forall b :: b in f.ready ==> b in c.buffers && f.ready[b] == Loadable(c, s, b))
    && Listed(s, f.commitments, c.agvIds)
  }

  function Find(rows: map<BufferId, seq<AgvId>>, b: BufferId): seq<AgvId> {
    if b in rows then rows[b] else []
  }

  ghost predicate Listed(s: State, rows: map<BufferId, seq<AgvId>>, ids: seq<AgvId>) {
    forall b :: Find(rows, b) == Commitments(s, b, ids)
  }

  lemma {:induction false} CommitmentsAppend(s: State, b: BufferId, ids: seq<AgvId>, v: AgvId)
    ensures Commitments(s, b, ids + [v]) == Commitments(s, b, ids) + if Committed(s, v, b) then [v] else []
  {
    if ids == [] {
      assert ids + [v] == [v];
      assert Commitments(s, b, [v]) == (if Committed(s, v, b) then [v] else []) + Commitments(s, b, []);
    } else {
      assert (ids + [v])[1..] == ids[1..] + [v];
      CommitmentsAppend(s, b, ids[1..], v);
    }
  }

  class ReadPhase {
    const c: Scenario
    var core: State
    var facts: Option<Facts>

    /** The reservation protocol without central assignments. */
    ghost predicate Valid()
      reads this
    {
      && WellFormed(c) && Inv(c, core) && core.assignments == map[]
      && (facts.Some? ==> True(c, core, facts.value))
    }

    constructor (scenario: Scenario, s: State)
      requires WellFormed(scenario) && Inv(scenario, s) && s.assignments == map[]
      ensures Valid() && c == scenario && core == s && facts.None?
    {
      c, core, facts := scenario, s, None;
    }

    /** The state changes only between phases. */
    method Mutate(s: State)
      requires Valid() && facts.None? && Inv(c, s) && s.assignments == map[]
      modifies `core
      ensures Valid() && core == s
    {
      core := s;
    }

    /** `local_facts`: reservations are listed by owner at once; a phase inside a phase changes nothing. */
    method Enter() returns (outermost: bool)
      requires Valid()
      modifies `facts
      ensures Valid() && facts.Some? && outermost == old(facts).None? && (old(facts).Some? ==> facts == old(facts))
    {
      if facts.Some? { return false; }
      hide Inv, WellFormed, Commitments;
      var rows: map<BufferId, seq<AgvId>> := map[];
      Nobody(core, rows);
      for i := 0 to |c.agvIds|
        invariant Listed(core, rows, c.agvIds[..i])
      {
        var v := c.agvIds[i];
        assert c.agvIds[..i + 1] == c.agvIds[..i] + [v];
        if v in core.agvs && core.agvs[v].target.Some? {
          var b := core.agvs[v].target.value;
          rows := rows[b := Find(rows, b) + [v]];
        }
        forall b ensures Find(rows, b) == Commitments(core, b, c.agvIds[..i + 1]) { CommitmentsAppend(core, b, c.agvIds[..i], v); }
      }
      assert c.agvIds[..|c.agvIds|] == c.agvIds;
      facts := Some(Facts(map[], map[], map[], rows));
      outermost := true;
    }

    method Leave()
      requires Valid()
      modifies `facts
      ensures Valid() && facts.None?
    {
      facts := None;
    }

    /** `items` */
    method ItemsOf(b: BufferId) returns (found: seq<JobId>)
      requires Valid() && b in c.buffers
      modifies `facts
      ensures Valid() && found == Items(c, core, b) && (facts.Some? <==> old(facts).Some?)
    {
      hide Inv, WellFormed;
      if facts.None? { return Items(c, core, b); }
      var f := facts.value;
      if b !in f.items { facts := Some(f.(items := f.items[b := Items(c, core, b)])); }
      found := facts.value.items[b];
    }

    /** `commitments` */
    method CommitmentsOf(b: BufferId) returns (found: seq<AgvId>)
      requires Valid()
      ensures found == Commitments(core, b, c.agvIds)
    {
      found := if facts.Some? then Find(facts.value.commitments, b) else Commitments(core, b, c.agvIds);
    }

    /** `post_credit_components` */
    method CreditComponents(b: BufferId) returns (credit: Credit)
      requires Valid() && b in c.buffers && c.buffers[b].role.Post?
      modifies `facts
      ensures Valid() && credit == CreditOf(c, core, b) && (facts.Some? <==> old(facts).Some?)
    {
      hide Inv, Commitments, Items, WellFormed, SetOf, Started;
      if facts.Some? && b in facts.value.credits { return facts.value.credits[b]; }
      PostMachine(c, b);
      var items := ItemsOf(b);
      var committed := CommitmentsOf(b);
      var physical, started := |SetOf(items)|, Started(c, core, c.buffers[b].role.machine);
      credit := Credit(physical, started, |committed|, physical + started - |committed|);
      if facts.Some? {
        var f := facts.value;
        facts := Some(f.(credits := f.credits[b := credit]));
      }
    }

    /** `ready` */
    method ReadyOf(b: BufferId) returns (found: set<JobId>)
      requires Valid() && b in c.buffers
      modifies `facts
      ensures Valid() && found == Loadable(c, core, b) && (facts.Some? <==> old(facts).Some?)
    {
      hide Inv, WellFormed;
      if facts.None? { return Loadable(c, core, b); }
      var f := facts.value;
      if b !in f.ready { facts := Some(f.(ready := f.ready[b := Loadable(c, core, b)])); }
      found := facts.value.ready[b];
    }

    /** `quota`, from cached parts: the same number as the plain query. */
    method QuotaOf(b: BufferId) returns (n: int)
      requires Valid() && b in c.buffers
      modifies `facts
      ensures Valid() && n == Quota(c, core, b) && (facts.Some? <==> old(facts).Some?)
    {
      hide Inv, Commitments, Items, StationCapacity;
      assert GoodBuffer(c, b);
      match c.buffers[b].role
      case Output => n := |c.agvIds|;
      case Input =>
        var items := ItemsOf(b);
        var committed := CommitmentsOf(b);
        n := Max(0, |items| - |committed|);
      case Post(m) =>
        var credit := CreditComponents(b);
        PhysicalCount(c, core, b);
        n := Max(0, credit.free);
      case Pre(m) =>
        assert GoodMachine(c, m);
        var before := ItemsOf(c.pre[m]);
        var after := ItemsOf(c.post[m]);
        var committed := CommitmentsOf(b);
        n := Max(0, StationCapacity(c, m) - |before + after + OnMachine(core, m)| - |committed|);
    }
  }

  lemma PostMachine(c: Scenario, b: BufferId)
    requires WellFormed(c) && b in c.buffers && c.buffers[b].role.Post?
    ensures c.buffers[b].role.machine in c.post && c.post[c.buffers[b].role.machine] == b
  {
    assert GoodBuffer(c, b);
  }

  lemma Nobody(s: State, rows: map<BufferId, seq<AgvId>>)
    requires rows == map[]
    ensures Listed(s, rows, [])
  {
  }

  /** A buffer lists no job twice. */
  lemma PhysicalCount(c: Scenario, s: State, b: BufferId)
    requires WellFormed(c) && Inv(c, s) && b in c.buffers
    ensures |SetOf(Items(c, s, b))| == |Items(c, s, b)|
  {
    ItemsMeaning(c, s, b);
    CountDistinct(Items(c, s, b));
  }
}
