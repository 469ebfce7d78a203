/** Rule actions: a physical decision is projected onto one representative per configured rule. Equal
    choices become aliases of the earliest rule that made them, and every representative stays a legal
    physical action. */
module RuleProjection {
  import opened Collections

  type Word = nat

  datatype Group = Dispatcher | Pre | Post | Input | Machine
  datatype Stage = Pickup | Delivery | Accept | Service | Process

  datatype Rule =
    | Nearest | MostReadyStock | MostUrgentReadyStock | FewestCommitments | LeastPreWork | FewestPreJobs
    | JobEdd | LeastRemaining | LongestIdle | OldestArrival | LongestQueue | MostRemaining | MostFeasible
    | LeastNextPreWork | ShortestProcessing | Custom(name: nat)

  datatype Action = Stop | EmptyWait | Ordinary(parts: seq<Word>)

  /** Physical candidates are named by the protocol, representatives by their rule and mode. */
  datatype Identity = Physical(n: nat) | OfRule(rule: Rule, mode: Option<Word>)

  datatype Candidate = Candidate(identity: Identity, action: Action, features: seq<real>)

  datatype Request = Request(group: Group, stage: Stage, candidates: seq<Candidate>, stations: seq<seq<real>>, customs: seq<nat>)

  const FEATURES: nat := 48
  const RULE_BITS_START: nat := 45

  predicate Special(c: Candidate) {
    !c.action.Ordinary?
  }

  function Catalog(g: Group, s: Stage): seq<Rule> {
    match (g, s)
    case (Dispatcher, Pickup) => [Nearest, MostReadyStock, MostUrgentReadyStock, FewestCommitments]
    case (Dispatcher, Delivery) => [Nearest, LeastPreWork, FewestPreJobs]
    case (Pre, Accept) => [JobEdd, Nearest, LeastRemaining]
    case (Post, Accept) => [Nearest, LongestIdle]
    case (Input, Accept) => [Nearest, LongestIdle]
    case (Pre, Service) => [JobEdd, OldestArrival, LeastRemaining]
    case (Post, Service) => [JobEdd, LongestQueue, LeastRemaining, MostRemaining, MostFeasible, LeastNextPreWork]
    case (Input, Service) => [JobEdd, LongestQueue, LeastRemaining, MostRemaining, MostFeasible, LeastNextPreWork]
    case (Machine, Process) => [JobEdd, ShortestProcessing, LongestQueue]
    case _ => []
  }

  predicate Pairs(r: Request) {
    r.group.Machine? || ((r.group.Post? || r.group.Input?) && r.stage.Service?)
  }

  /** `_validate`: a supported stage, candidates with distinct names and actions, free rule columns. */
  ghost predicate Valid(r: Request) {
    && Catalog(r.group, r.stage) != []
    && (forall i, k :: 0 <= i < k < |r.candidates| ==>
          r.candidates[i].identity != r.candidates[k].identity && r.candidates[i].action != r.candidates[k].action)
    && (forall row :: row in r.stations ==> |row| == FEATURES)
    && forall c :: c in r.candidates ==> WellFormed(r, c)
  }

  predicate WellFormed(r: Request, c: Candidate) {
    && c.identity.Physical? && |c.features| == FEATURES
    && (forall i :: RULE_BITS_START <= i < FEATURES ==> c.features[i] == 0.0)
    && (c.action.Ordinary? ==> |c.action.parts| == if Pairs(r) then 2 else 1)
  }

  // -- how a rule ranks ------------------------------------------------------------------------

  /** `_score`; lower is better. */
  function Score(r: Request, rule: Rule, c: Candidate): real
    requires |c.features| == FEATURES
  {
    var f := c.features;
    match rule
    case Nearest => f[0]
    case MostReadyStock => -f[2]
    case MostUrgentReadyStock => f[3]
    case FewestCommitments => f[14]
    case FewestPreJobs => f[15]
    case LeastPreWork => f[42]
    case LongestIdle => -f[23]
    case MostRemaining => -f[1]
    case MostFeasible => -f[22]
    case LeastNextPreWork => f[23]
    case JobEdd => if r.group.Pre? then f[4] else f[0]
    case LeastRemaining => if r.group.Pre? then f[5] else f[1]
    case LongestQueue => -f[2]
    case ShortestProcessing => f[12]
    case OldestArrival => if r.group.Pre? then -f[3] else -f[19]
    case Custom(n) => 0.0
  }

  /** Pairs of a job and a vehicle prefer the vehicle that arrived first. */
  function Age(r: Request, c: Candidate): real
    requires |c.features| == FEATURES
  {
    if (r.group.Post? || r.group.Input?) && r.stage.Service? then -c.features[19] else 0.0
  }

  /** Score, then arrival, then name. */
  predicate Preferred(r: Request, rule: Rule, a: Candidate, b: Candidate)
    requires WellFormed(r, a) && WellFormed(r, b)
  {
    var x, y := Score(r, rule, a), Score(r, rule, b);
    x < y || (x == y && (Age(r, a) < Age(r, b) || (Age(r, a) == Age(r, b) && a.identity.n <= b.identity.n)))
  }

  /** `min(pool, key=...)` */
  method Best(r: Request, rule: Rule, pool: seq<Candidate>) returns (best: Option<Candidate>)
    requires forall c :: c in pool ==> WellFormed(r, c)
    ensures best == None <==> pool == []
    ensures best.Some? ==> Minimal(r, rule, pool, best.value)
  {
    if pool == [] { return None; }
    var least := pool[0];
    for i := 1 to |pool|
      invariant least in pool && forall k :: 0 <= k < i ==> Preferred(r, rule, least, pool[k])
    {
      if !Preferred(r, rule, least, pool[i]) { least := pool[i]; }
    }
    best := Some(least);
  }

  ghost predicate Minimal(r: Request, rule: Rule, pool: seq<Candidate>, c: Candidate) {
    && (forall x :: x in pool ==> WellFormed(r, x))
    && c in pool && forall x :: x in pool ==> Preferred(r, rule, c, x)
  }

  /** Names are distinct, so the choice is determined. */
  lemma MinimalIsUnique(r: Request, rule: Rule, pool: seq<Candidate>, a: Candidate, b: Candidate)
    requires Valid(r) && Minimal(r, rule, pool, a) && Minimal(r, rule, pool, b)
    requires forall c :: c in pool ==> c in r.candidates
    ensures a == b
  {
    assert Preferred(r, rule, a, b) && Preferred(r, rule, b, a);
    var i :| 0 <= i < |r.candidates| && r.candidates[i] == a;
    var k :| 0 <= k < |r.candidates| && r.candidates[k] == b;
    assert i < k || k < i ==> a.identity != b.identity;
  }

  // -- which candidates a rule may pick -----------------------------------------------------------

  function Filter(cs: seq<Candidate>, keep: Candidate -> bool): (r: seq<Candidate>)
    ensures forall c :: c in r <==> c in cs && keep(c)
  {
    if cs == [] then []
    else
      var init, last := Filter(cs[..|cs| - 1], keep), cs[|cs| - 1];
      if keep(last) then init + [last] else init
  }

  function OrdinaryOf(r: Request): seq<Candidate> {
    Filter(r.candidates, c => !Special(c))
  }

  /** The mode of a machine candidate is its second part. */
  predicate InMode(c: Candidate, mode: Option<Word>) {
    mode.None? || (c.action.Ordinary? && |c.action.parts| == 2 && c.action.parts[1] == mode.value)
  }

  function Eligible(r: Request, mode: Option<Word>): seq<Candidate> {
    Filter(OrdinaryOf(r), c => InMode(c, mode))
  }

  function Tagged(rows: seq<seq<real>>, tag: real): nat {
    if rows == [] then 0
    else Tagged(rows[..|rows| - 1], tag) + if |rows[|rows| - 1]| > 0 && rows[|rows| - 1][0] == tag then 1 else 0
  }

  /** All destinations are machines: three station rows each, tagged 1, 2 and 3. */
  predicate MachineDestinations(r: Request) {
    var n := |OrdinaryOf(r)|;
    && |r.stations| == 3 * n && n > 0
    && Tagged(r.stations, 1.0) == n && Tagged(r.stations, 2.0) == n && Tagged(r.stations, 3.0) == n
  }

  function Feature(c: Candidate, i: nat): real {
    if i < |c.features| then c.features[i] else 0.0
  }

  predicate ConstantIdle(cs: seq<Candidate>) {
    forall a, b :: a in cs && b in cs ==> Feature(a, 23) == Feature(b, 23)
  }

  function Pool(r: Request, rule: Rule, mode: Option<Word>): seq<Candidate> {
    var eligible := Eligible(r, mode);
    if rule.LongestIdle? then (if ConstantIdle(eligible) then [] else eligible)
    else if rule.MostFeasible? || rule.LeastNextPreWork? then Filter(eligible, c => Feature(c, 24) == 1.0 && Feature(c, 25) == 0.0)
    else if r.group.Dispatcher? && r.stage.Delivery? && !rule.Nearest? then (if MachineDestinations(r) then eligible else [])
    else if rule.MostUrgentReadyStock? then Filter(eligible, c => Feature(c, 2) > 0.0)
    else eligible
  }

  lemma PoolIsLegal(r: Request, rule: Rule, mode: Option<Word>)
    ensures forall c :: c in Pool(r, rule, mode) ==> c in r.candidates && c.action.Ordinary? && InMode(c, mode)
  {
  }

  lemma PoolWellFormed(r: Request, rule: Rule, mode: Option<Word>)
    requires Valid(r)
    ensures forall c :: c in Pool(r, rule, mode) ==> WellFormed(r, c)
  {
    PoolIsLegal(r, rule, mode);
  }

  lemma CandidateWidth(r: Request, c: Candidate)
    requires Valid(r) && c in r.candidates
    ensures |c.features| == FEATURES
  {
    assert WellFormed(r, c);
  }

  /** A custom rule names an eligible candidate or declines. */
  type Chooser = (nat, Option<Word>, seq<Candidate>) -> Option<Identity>

  // -- the projection ----------------------------------------------------------------------------

  datatype Status = Unavailable | Alias | Available

  datatype Row = Row(status: Status, representative: Option<Identity>, choice: Option<Candidate>)

  function Code(r: Request, rule: Rule): nat {
    if rule.Custom? then |Catalog(r.group, r.stage)| + 1 + Below(r.customs, rule.name) else 1 + Position(Catalog(r.group, r.stage), rule)
  }

  function Position(rules: seq<Rule>, rule: Rule): nat {
    if rules == [] || rules[0] == rule then 0 else 1 + Position(rules[1..], rule)
  }

  function Below(names: seq<nat>, name: nat): nat {
    if names == [] then 0 else Below(names[1..], name) + if names[0] < name then 1 else 0
  }

  /** `_bits` */
  function Bits(code: nat): seq<real> {
    [(code % 2) as real, (code / 2 % 2) as real, (code / 4) as real]
  }

  lemma BitsWidth(code: nat)
    ensures |Bits(code)| == FEATURES - RULE_BITS_START
  {
  }

  lemma Decomposed(n: nat)
    ensures n == n % 2 + 2 * (n / 2 % 2) + 4 * (n / 4)
  {
  }

  lemma BitsDetermineCode(a: nat, b: nat)
    requires Bits(a) == Bits(b)
    ensures a == b
  {
    BitsSpell(a);
    BitsSpell(b);
  }

  /** The columns spell the code, the lowest two bits first and the rest in one number. */
  lemma BitsSpell(code: nat)
    ensures var b := Bits(code);
            && |b| == 3 && b[0] + 2.0 * b[1] + 4.0 * b[2] == code as real
            && b[0] in {0.0, 1.0} && b[1] in {0.0, 1.0} && b[2] == b[2].Floor as real
  {
    Decomposed(code);
  }

  /** Codes count from one: first the catalog in its order, then the extensions by name. */
  lemma CodeMeans(r: Request, rule: Rule)
    requires rule.Custom? ==> NoDup(r.customs)
    ensures var code, listed := Code(r, rule), Catalog(r.group, r.stage);
            && code >= 1
            && (!rule.Custom? && rule in listed ==> code <= |listed| && listed[code - 1] == rule)
            && (rule.Custom? ==> code == |listed| + 1 + |set n | n in r.customs && n < rule.name|)
  {
    if rule.Custom? { BelowMeans(r.customs, rule.name); } else { PositionMeans(Catalog(r.group, r.stage), rule); }
  }

  lemma {:induction false} PositionMeans(rules: seq<Rule>, rule: Rule)
    ensures rule in rules ==> Position(rules, rule) < |rules| && rules[Position(rules, rule)] == rule
  {
    if rules != [] && rules[0] != rule { PositionMeans(rules[1..], rule); }
  }

  lemma {:induction false} BelowMeans(names: seq<nat>, name: nat)
    requires NoDup(names)
    ensures Below(names, name) == |set n | n in names && n < name|
  {
    if names != [] {
      var rest := names[1..];
      assert names == [names[0]] + rest;
      assert NoDup(rest) && names[0] !in rest by {
        assert multiset(names) == multiset{names[0]} + multiset(rest);
        forall x ensures multiset(rest)[x] <= 1 { assert multiset(names)[x] <= 1; }
        assert multiset(names)[names[0]] <= 1;
      }
      BelowMeans(rest, name);
      var below := set n | n in rest && n < name;
      assert (set n | n in names && n < name) == if names[0] < name then below + {names[0]} else below;
    }
  }

  /** The rows so far, in the order in which they were made. */
  datatype Audit = Audit(rows: map<Identity, Row>, listed: seq<Identity>)

  ghost predicate Complete(t: Audit) {
    NoDup(t.listed) && forall id :: id in t.rows <==> id in t.listed
  }

  ghost predicate ChoseAction(t: Audit, id: Identity, a: Action) {
    id in t.rows && t.rows[id].choice.Some? && t.rows[id].choice.value.action == a
  }

  /** The row at `k` is unavailable, an alias of an earlier available row with the same action, or the
      first row with its action. */
  ghost predicate Explained(t: Audit, k: nat)
    requires k < |t.listed|
  {
    && t.listed[k] in t.rows
    && var row := t.rows[t.listed[k]];
       match row.status
       case Unavailable => row.choice.None? && row.representative.None?
       case Alias => row.choice.Some? && row.representative.Some? && AliasOf(t, k, row.choice.value.action, row.representative.value)
       case Available => row.choice.Some? && row.representative == Some(t.listed[k]) && First(t, k, row.choice.value.action)
  }

  ghost predicate AliasOf(t: Audit, k: nat, a: Action, other: Identity)
    requires k < |t.listed|
  {
    exists i :: 0 <= i < k && t.listed[i] == other && ChoseAction(t, other, a) && t.rows[other].status.Available?
  }

  ghost predicate First(t: Audit, k: nat, a: Action)
    requires k < |t.listed|
  {
    forall i :: 0 <= i < k ==> !ChoseAction(t, t.listed[i], a)
  }

  ghost predicate Grows(t: Audit, more: Audit) {
    t.listed <= more.listed && (forall id :: id in t.rows ==> id in more.rows && more.rows[id] == t.rows[id])
  }

  lemma ExplainedStays(t: Audit, more: Audit, k: nat)
    requires Complete(t) && Grows(t, more) && k < |t.listed| && Explained(t, k)
    ensures Explained(more, k)
  {
    assert forall i :: 0 <= i < |t.listed| ==> more.listed[i] == t.listed[i] && t.listed[i] in t.rows;
  }

  /** A representative is the choice of an available row, with the physical features of that choice and
      the code of its rule. */
  ghost predicate Retained(request: Request, t: Audit, c: Candidate) {
    && c.identity in t.rows && t.rows[c.identity].status.Available? && ChoseAction(t, c.identity, c.action)
    && Shows(request, c, t.rows[c.identity].choice.value)
  }

  ghost predicate Shows(request: Request, shown: Candidate, c: Candidate) {
    && c in request.candidates && shown.action == c.action
    && |shown.features| == |c.features| == FEATURES && shown.features[..RULE_BITS_START] == c.features[..RULE_BITS_START]
    && (shown.identity.OfRule? ==> shown.features[RULE_BITS_START..] == Bits(Code(request, shown.identity.rule)))
    && (shown.identity.Physical? ==> shown == c)
  }

  /** The representative of an action is the available row that chose it. */
  ghost predicate Represents(t: Audit, id: Identity, a: Action) {
    ChoseAction(t, id, a) && t.rows[id].status.Available?
  }

  ghost predicate Kept(projected: seq<Candidate>, id: Identity) {
    exists c :: c in projected && c.identity == id
  }

  ghost predicate Sound(request: Request, t: Audit, projected: seq<Candidate>, representatives: map<Action, Identity>) {
    && Complete(t)
    && (forall k :: 0 <= k < |t.listed| ==> Explained(t, k))
    && (forall c :: c in projected ==> Retained(request, t, c) && c.action in representatives)
    && (forall id :: id in t.rows && t.rows[id].status.Available? ==> Kept(projected, id))
    && (forall i, k :: 0 <= i < k < |projected| ==> projected[i].action != projected[k].action)
    && (forall id, a :: ChoseAction(t, id, a) ==> a in representatives)
    && forall a :: a in representatives ==> Represents(t, representatives[a], a)
  }

  function Added(t: Audit, id: Identity, row: Row): Audit {
    Audit(t.rows[id := row], t.listed + [id])
  }

  /** What `emit` records for a choice. */
  function RowFor(representatives: map<Action, Identity>, id: Identity, choice: Option<Candidate>): Row {
    if choice.None? then Row(Unavailable, None, None)
    else if choice.value.action in representatives then Row(Alias, Some(representatives[choice.value.action]), choice)
    else Row(Available, Some(id), choice)
  }

  lemma NewRow(request: Request, t: Audit, projected: seq<Candidate>, representatives: map<Action, Identity>, id: Identity, choice: Option<Candidate>)
    requires Sound(request, t, projected, representatives) && id !in t.rows
    ensures var more := Added(t, id, RowFor(representatives, id, choice)); Complete(more) && Grows(t, more) && Explained(more, |t.listed|)
  {
    var row := RowFor(representatives, id, choice);
    var more, n := Added(t, id, row), |t.listed|;
    NoDupAppend(t.listed, id);
    if row.status.Alias? {
      var a := choice.value.action;
      var other := representatives[a];
      assert Represents(t, other, a);
      var i :| 0 <= i < n && t.listed[i] == other;
      assert more.listed[i] == other && ChoseAction(more, other, a);
    } else if row.status.Available? {
      forall i | 0 <= i < n ensures !ChoseAction(more, more.listed[i], choice.value.action) {
        assert more.listed[i] == t.listed[i] && t.listed[i] in t.rows && !ChoseAction(t, t.listed[i], choice.value.action);
      }
    }
  }

  lemma KeptMore(projected: seq<Candidate>, shown: Candidate, t: Audit, id: Identity, row: Row)
    requires shown.identity == id && forall x :: x in t.rows && t.rows[x].status.Available? ==> Kept(projected, x)
    ensures forall x :: x in Added(t, id, row).rows && x != id && Added(t, id, row).rows[x].status.Available? ==> Kept(projected, x)
    ensures forall x :: x in Added(t, id, row).rows && Added(t, id, row).rows[x].status.Available? ==> Kept(projected + [shown], x)
  {
    var more := projected + [shown];
    assert more[|projected|] == shown;
    forall x | x != id && Kept(projected, x) ensures Kept(more, x) {
      var c :| c in projected && c.identity == x;
      assert c in more;
    }
  }

  lemma RetainedMore(request: Request, t: Audit, projected: seq<Candidate>, more: Audit)
    requires Grows(t, more) && forall c :: c in projected ==> Retained(request, t, c)
    ensures forall c :: c in projected ==> Retained(request, more, c)
  {
    hide Shows;
    forall c | c in projected ensures Retained(request, more, c) { assert Retained(request, t, c); }
  }

  lemma ActionsMore(t: Audit, more: Audit, id: Identity, row: Row, representatives: map<Action, Identity>)
    requires id !in t.rows && more == Added(t, id, row)
    requires forall x, a :: ChoseAction(t, x, a) ==> a in representatives
    requires forall a :: a in representatives ==> Represents(t, representatives[a], a)
    ensures forall x, a :: ChoseAction(more, x, a) && x != id ==> a in representatives
    ensures forall a :: a in representatives ==> Represents(more, representatives[a], a)
  {
    forall x, a | ChoseAction(more, x, a) && x != id ensures a in representatives { assert ChoseAction(t, x, a); }
    forall a | a in representatives ensures Represents(more, representatives[a], a) { assert Represents(t, representatives[a], a); }
  }

  lemma RowAdded(request: Request, t: Audit, projected: seq<Candidate>, representatives: map<Action, Identity>, id: Identity, choice: Option<Candidate>, shown: Candidate)
    requires Sound(request, t, projected, representatives) && id !in t.rows
    requires choice.Some? ==> shown.identity == id && Shows(request, shown, choice.value)
    ensures var row := RowFor(representatives, id, choice);
            if row.status.Available? then Sound(request, Added(t, id, row), projected + [shown], representatives[shown.action := id])
            else Sound(request, Added(t, id, row), projected, representatives)
  {
    hide Explained, Kept, Grows, Shows, Retained, ChoseAction, Represents, Complete, RowFor;
    var row := RowFor(representatives, id, choice);
    var more := Added(t, id, row);
    NewRow(request, t, projected, representatives, id, choice);
    RetainedMore(request, t, projected, more);
    ActionsMore(t, more, id, row, representatives);
    RowFacts(request, t, representatives, id, choice, shown);
    if choice.Some? { KeptMore(projected, shown, t, id, row); }
    forall k | 0 <= k < |more.listed| ensures Explained(more, k) { if k < |t.listed| { ExplainedStays(t, more, k); } }
  }

  /** What the new row says of its own identity. */
  lemma RowFacts(request: Request, t: Audit, representatives: map<Action, Identity>, id: Identity, choice: Option<Candidate>, shown: Candidate)
    requires choice.Some? ==> shown.identity == id && Shows(request, shown, choice.value)
    ensures var row := RowFor(representatives, id, choice); var more := Added(t, id, row);
            && (row.status.Available? ==> choice.Some? && shown.action !in representatives && Retained(request, more, shown) && Represents(more, id, shown.action))
            && forall a :: ChoseAction(more, id, a) ==> a in representatives || (row.status.Available? && a == shown.action)
  {
  }

  // -- what is planned ---------------------------------------------------------------------------

  function InsertMode(modes: seq<Word>, m: Word): (r: seq<Word>)
    ensures forall x :: x in r <==> x == m || x in modes
  {
    if modes == [] then [m]
    else if m < modes[0] then [m] + modes
    else if m == modes[0] then modes
    else
      assert modes == [modes[0]] + modes[1..];
      [modes[0]] + InsertMode(modes[1..], m)
  }

  function ModesOf(cs: seq<Candidate>): seq<Word> {
    if cs == [] then []
    else
      var rest, c := ModesOf(cs[..|cs| - 1]), cs[|cs| - 1];
      if c.action.Ordinary? && |c.action.parts| == 2 then InsertMode(rest, c.action.parts[1]) else rest
  }

  ghost predicate Ascending(modes: seq<Word>) {
    forall i, k :: 0 <= i < k < |modes| ==> modes[i] < modes[k]
  }

  lemma {:induction false} InsertAscends(modes: seq<Word>, m: Word)
    requires Ascending(modes)
    ensures Ascending(InsertMode(modes, m))
  {
    if modes != [] && m > modes[0] {
      InsertAscends(modes[1..], m);
      var rest := InsertMode(modes[1..], m);
      forall k | 0 <= k < |rest| ensures modes[0] < rest[k] { assert rest[k] in rest; }
    }
  }

  lemma {:induction false} ModesAscend(cs: seq<Candidate>)
    ensures Ascending(ModesOf(cs))
  {
    if cs != [] {
      ModesAscend(cs[..|cs| - 1]);
      var c := cs[|cs| - 1];
      if c.action.Ordinary? && |c.action.parts| == 2 { InsertAscends(ModesOf(cs[..|cs| - 1]), c.action.parts[1]); }
    }
  }

  /** Machines are asked mode by mode; everything else has one round. */
  function Modes(r: Request): seq<Option<Word>> {
    if r.group.Machine? then
      var words := ModesOf(OrdinaryOf(r));
      seq(|words|, i requires 0 <= i < |words| => Some(words[i]))
    else [None]
  }

  /** For machines every mode of a candidate once, in order; otherwise one round for all. */
  lemma ModesMean(r: Request)
    ensures !r.group.Machine? ==> Modes(r) == [None]
    ensures r.group.Machine? ==> forall m :: m in Modes(r) <==>
              m.Some? && exists c :: c in r.candidates && c.action.Ordinary? && |c.action.parts| == 2 && c.action.parts[1] == m.value
    ensures r.group.Machine? ==> forall i, k :: 0 <= i < k < |Modes(r)| ==> Modes(r)[i].Some? && Modes(r)[k].Some? && Modes(r)[i].value < Modes(r)[k].value
  {
    ModesAscend(OrdinaryOf(r));
    ModesListed(OrdinaryOf(r));
    if r.group.Machine? {
      var words := ModesOf(OrdinaryOf(r));
      hide ModesOf;
      assert |Modes(r)| == |words| && forall i :: 0 <= i < |words| ==> Modes(r)[i] == Some(words[i]);
      forall m ensures m in Modes(r) <==> m.Some? && m.value in words {
        if m.Some? && m.value in words {
          var i :| 0 <= i < |words| && words[i] == m.value;
          assert Modes(r)[i] == m;
        }
      }
    }
  }

  lemma {:induction false} ModesListed(cs: seq<Candidate>)
    ensures forall m :: m in ModesOf(cs) <==> exists c :: c in cs && c.action.Ordinary? && |c.action.parts| == 2 && c.action.parts[1] == m
  {
    if cs != [] {
      ModesListed(cs[..|cs| - 1]);
      assert forall c :: c in cs <==> c in cs[..|cs| - 1] || c == cs[|cs| - 1];
    }
  }

  function Round(mode: Option<Word>, rules: seq<Rule>): (ids: seq<Identity>)
    ensures |ids| == |rules| && forall i :: 0 <= i < |rules| ==> ids[i] == OfRule(rules[i], mode)
  {
    seq(|rules|, i requires 0 <= i < |rules| => OfRule(rules[i], mode))
  }

  /** One row per mode and rule, in this order. */
  function Plan(modes: seq<Option<Word>>, rules: seq<Rule>): seq<Identity> {
    if modes == [] then [] else Plan(modes[..|modes| - 1], rules) + Round(modes[|modes| - 1], rules)
  }

  lemma {:induction false} PlanModes(modes: seq<Option<Word>>, rules: seq<Rule>, id: Identity)
    ensures id in Plan(modes, rules) ==> id.OfRule? && id.mode in modes
  {
    if modes != [] { PlanModes(modes[..|modes| - 1], rules, id); }
  }

  lemma NotPlanned(modes: seq<Option<Word>>, rules: seq<Rule>, i: nat, j: nat)
    requires NoDup(modes) && NoDup(rules) && i < |modes| && j < |rules|
    ensures OfRule(rules[j], modes[i]) !in Plan(modes[..i], rules) + Round(modes[i], rules[..j])
  {
    var id := OfRule(rules[j], modes[i]);
    forall k | 0 <= k < i ensures modes[k] != modes[i] { NoDupIndex(modes, k, i); }
    PlanModes(modes[..i], rules, id);
    forall k | 0 <= k < j ensures rules[k] != rules[j] { NoDupIndex(rules, k, j); }
  }

  lemma {:induction false} DistinctModes(modes: seq<Option<Word>>)
    requires forall i, k :: 0 <= i < k < |modes| ==> modes[i] != modes[k]
    ensures NoDup(modes)
  {
    if modes != [] {
      DistinctModes(modes[..|modes| - 1]);
      NoDupAppend(modes[..|modes| - 1], modes[|modes| - 1]);
      assert modes == modes[..|modes| - 1] + [modes[|modes| - 1]];
    }
  }

  lemma ModesDistinct(r: Request)
    ensures NoDup(Modes(r))
  {
    ModesAscend(OrdinaryOf(r));
    DistinctModes(Modes(r));
  }

  /** What a rule is obliged to choose: the best of its pool, or what the custom rule names. */
  ghost predicate IsChoice(r: Request, choose: Chooser, rule: Rule, mode: Option<Word>, choice: Option<Candidate>) {
    if rule.Custom? then
      match choose(rule.name, mode, Eligible(r, mode))
      case None => choice.None?
      case Some(id) => choice.Some? && choice.value in Eligible(r, mode) && choice.value.identity == id
    else
      (choice.None? <==> Pool(r, rule, mode) == []) && (choice.Some? ==> Minimal(r, rule, Pool(r, rule, mode), choice.value))
  }

  /** A custom rule named something that is not an eligible candidate. */
  ghost predicate NamesIllegal(r: Request, choose: Chooser, rule: Rule, mode: Option<Word>) {
    && rule.Custom? && choose(rule.name, mode, Eligible(r, mode)).Some?
    && forall c :: c in Eligible(r, mode) ==> c.identity != choose(rule.name, mode, Eligible(r, mode)).value
  }

  lemma ChoiceIsLegal(r: Request, choose: Chooser, rule: Rule, mode: Option<Word>, choice: Option<Candidate>)
    requires IsChoice(r, choose, rule, mode, choice) && choice.Some?
    ensures choice.value in r.candidates && choice.value.action.Ordinary?
  {
    PoolIsLegal(r, rule, mode);
  }

  datatype Failure = InvalidRules | IllegalCustom | NoAvailableRule

  predicate Configured(r: Request, rules: seq<Rule>) {
    && rules != [] && (forall i, k :: 0 <= i < k < |rules| ==> rules[i] != rules[k])
    && forall rule :: rule in rules ==> if rule.Custom? then rule.name in r.customs else rule in Catalog(r.group, r.stage)
  }

  lemma {:induction false} DistinctRules(rules: seq<Rule>)
    requires forall i, k :: 0 <= i < k < |rules| ==> rules[i] != rules[k]
    ensures NoDup(rules)
  {
    if rules != [] {
      DistinctRules(rules[..|rules| - 1]);
      NoDupAppend(rules[..|rules| - 1], rules[|rules| - 1]);
      assert rules == rules[..|rules| - 1] + [rules[|rules| - 1]];
    }
  }

  class Projection {
    const request: Request
    var projected: seq<Candidate>
    var rows: map<Identity, Row>
    var listed: seq<Identity>
    var representatives: map<Action, Identity>

    ghost function Made(): Audit
      reads this
    {
      Audit(rows, listed)
    }

    ghost predicate Consistent()
      reads this
    {
      Sound(request, Made(), projected, representatives)
    }

    constructor (r: Request)
      ensures request == r && Consistent() && projected == [] && listed == [] && rows == map[]
    {
      request, projected, rows, listed, representatives := r, [], map[], [], map[];
    }

    /** `emit` */
    method Emit(id: Identity, candidate: Option<Candidate>, shown: Candidate)
      requires Consistent() && id !in rows
      requires candidate.Some? ==> shown.identity == id && Shows(request, shown, candidate.value)
      modifies this
      ensures Consistent() && Made() == Added(old(Made()), id, RowFor(old(representatives), id, candidate))
      ensures projected == if rows[id].status.Available? then old(projected) + [shown] else old(projected)
    {
      hide Sound;
      RowAdded(request, Made(), projected, representatives, id, candidate, shown);
      assert candidate.Some? ==> shown.action == candidate.value.action;
      var row := Row(Unavailable, None, None);
      if candidate.Some? {
        var a := candidate.value.action;
        if a in representatives {
          row := Row(Alias, Some(representatives[a]), candidate);
        } else {
          representatives := representatives[a := id];
          row := Row(Available, Some(id), candidate);
          projected := projected + [shown];
        }
      }
      rows := rows[id := row];
      listed := listed + [id];
    }

    ghost predicate Chosen(choose: Chooser)
      reads this
    {
      forall id :: id in rows && id.OfRule? ==> IsChoice(request, choose, id.rule, id.mode, rows[id].choice)
    }

    /** One rule in one mode. */
    method ProjectRule(rule: Rule, mode: Option<Word>, choose: Chooser) returns (ok: bool)
      requires Valid(request) && Consistent() && Chosen(choose) && OfRule(rule, mode) !in rows
      modifies this
      ensures ok ==> Consistent() && Chosen(choose) && listed == old(listed) + [OfRule(rule, mode)]
      ensures old(projected) <= projected
      ensures !ok <==> NamesIllegal(request, choose, rule, mode)
    {
      hide Valid, Sound, Pool, Eligible, WellFormed, Code, Bits;
      var choice: Option<Candidate>;
      if rule.Custom? {
        var named := choose(rule.name, mode, Eligible(request, mode));
        choice := FindIdentity(Eligible(request, mode), named);
        if named.Some? && choice.None? { return false; }
      } else {
        PoolWellFormed(request, rule, mode);
        choice := Best(request, rule, Pool(request, rule, mode));
      }
      var id := OfRule(rule, mode);
      var shown := Candidate(id, Stop, []);
      if choice.Some? {
        ChoiceIsLegal(request, choose, rule, mode, choice);
        CandidateWidth(request, choice.value);
        BitsWidth(Code(request, rule));
        shown := Candidate(id, choice.value.action, choice.value.features[..RULE_BITS_START] + Bits(Code(request, rule)));
      }
      Emit(id, choice, shown);
      ok := true;
    }

    /** All rules, mode by mode. */
    method ProjectRules(modes: seq<Option<Word>>, rules: seq<Rule>, choose: Chooser) returns (ok: bool)
      requires Valid(request) && Consistent() && Chosen(choose) && listed == [] && NoDup(modes) && NoDup(rules)
      modifies this
      ensures ok ==> Consistent() && Chosen(choose) && listed == Plan(modes, rules)
      ensures !ok <==> exists rule, mode :: rule in rules && mode in modes && NamesIllegal(request, choose, rule, mode)
    {
      hide Sound, Chosen, Valid, NamesIllegal;
      for i := 0 to |modes|
        invariant Consistent() && Chosen(choose) && listed == Plan(modes[..i], rules)
        invariant forall rule, mode :: rule in rules && mode in modes[..i] ==> !NamesIllegal(request, choose, rule, mode)
      {
        for j := 0 to |rules|
          invariant Consistent() && Chosen(choose) && listed == Plan(modes[..i], rules) + Round(modes[i], rules[..j])
          invariant forall rule :: rule in rules[..j] ==> !NamesIllegal(request, choose, rule, modes[i])
        {
          NotPlanned(modes, rules, i, j);
          Unlisted(OfRule(rules[j], modes[i]));
          ok := ProjectRule(rules[j], modes[i], choose);
          if !ok {
            assert rules[j] in rules && modes[i] in modes;
            return;
          }
          assert rules[..j + 1] == rules[..j] + [rules[j]];
        }
        assert rules[..|rules|] == rules && modes[..i + 1] == modes[..i] + [modes[i]] && modes[..i + 1][..i] == modes[..i];
      }
      assert modes[..|modes|] == modes;
      ok := true;
    }

    lemma Unlisted(id: Identity)
      requires Consistent() && id !in listed
      ensures id !in rows
    {
    }

    /** A row of a rule, or of one of the first `n` candidates. */
    ghost predicate Settled(id: Identity, n: nat)
      reads this
    {
      id in rows &&
      if id.OfRule? then rows[id].choice.Some? ==> rows[id].choice.value.action.Ordinary?
      else exists k :: 0 <= k < n <= |request.candidates| && request.candidates[k].identity == id && rows[id].choice == Some(request.candidates[k])
    }

    lemma NewSpecial(i: nat)
      requires Valid(request) && Consistent() && i < |request.candidates| && Special(request.candidates[i])
      requires forall id :: id in rows ==> Settled(id, i)
      ensures request.candidates[i].identity !in rows && request.candidates[i].action !in representatives
      ensures Shows(request, request.candidates[i], request.candidates[i])
    {
      var c := request.candidates[i];
      assert c in request.candidates && WellFormed(request, c);
      forall id | id in rows ensures id != c.identity && !ChoseAction(Made(), id, c.action) { assert Settled(id, i); }
      assert forall a :: a in representatives ==> ChoseAction(Made(), representatives[a], a);
    }

    /** Stop and waiting keep their own names and actions, and never stand for a rule. */
    method KeepSpecial()
      requires Valid(request) && Consistent() && forall id :: id in rows ==> Settled(id, 0)
      modifies this
      ensures Consistent() && listed == old(listed) + SpecialNames(request.candidates) && old(projected) <= projected
      ensures forall id :: id in old(rows) ==> id in rows && rows[id] == old(rows)[id]
      ensures forall id :: id in rows ==> id in old(rows) || id.Physical?
      ensures forall c :: c in request.candidates && Special(c) ==> c in projected
    {
      hide Sound, Valid, Shows;
      for i := 0 to |request.candidates|
        invariant Consistent() && listed == old(listed) + SpecialNames(request.candidates[..i]) && old(projected) <= projected
        invariant forall id :: id in old(rows) ==> id in rows && rows[id] == old(rows)[id]
        invariant forall id :: id in rows ==> Settled(id, i) && (id in old(rows) || id.Physical?)
        invariant forall k :: 0 <= k < i && Special(request.candidates[k]) ==> request.candidates[k] in projected
      {
        var c := request.candidates[i];
        assert request.candidates[..i + 1][..i] == request.candidates[..i];
        if Special(c) {
          NewSpecial(i);
          PhysicalName(i);
          Emit(c.identity, Some(c), c);
          forall id | id in rows ensures Settled(id, i + 1) && (id in old(rows) || id.Physical?) {
            if id == c.identity { assert rows[id].choice == Some(request.candidates[i]); }
          }
        } else {
          forall id | id in rows ensures Settled(id, i + 1) { assert Settled(id, i); }
        }
      }
      assert request.candidates[..|request.candidates|] == request.candidates;
    }

    lemma RulesSettled(modes: seq<Option<Word>>, rules: seq<Rule>, choose: Chooser)
      requires Consistent() && Chosen(choose) && listed == Plan(modes, rules)
      ensures forall id :: id in rows ==> id.OfRule? && Settled(id, 0)
    {
      forall id | id in rows ensures id.OfRule? && Settled(id, 0) {
        PlanModes(modes, rules, id);
        if rows[id].choice.Some? { ChoiceIsLegal(request, choose, id.rule, id.mode, rows[id].choice); }
      }
    }

    lemma SoundParts()
      requires Consistent()
      ensures NoDup(listed) && (forall id :: id in rows <==> id in listed)
      ensures forall k :: 0 <= k < |listed| ==> Explained(Made(), k)
      ensures forall c :: c in projected ==> Retained(request, Made(), c)
      ensures forall id :: id in rows && rows[id].status.Available? ==> Kept(projected, id)
      ensures forall i, k :: 0 <= i < k < |projected| ==> projected[i].action != projected[k].action
    {
    }

    lemma PhysicalName(i: nat)
      requires Valid(request) && i < |request.candidates|
      ensures request.candidates[i].identity.Physical?
    {
      assert request.candidates[i] in request.candidates;
    }
  }

  function SpecialNames(cs: seq<Candidate>): seq<Identity> {
    if cs == [] then []
    else
      var init, last := SpecialNames(cs[..|cs| - 1]), cs[|cs| - 1];
      if Special(last) then init + [last.identity] else init
  }

  method FindIdentity(cs: seq<Candidate>, id: Option<Identity>) returns (found: Option<Candidate>)
    ensures found.Some? ==> found.value in cs && Some(found.value.identity) == id
    ensures found.None? ==> id.None? || forall c :: c in cs ==> c.identity != id.value
  {
    if id.None? { return None; }
    for i := 0 to |cs|
      invariant forall k :: 0 <= k < i ==> cs[k].identity != id.value
    {
      if cs[i].identity == id.value { return Some(cs[i]); }
    }
    found := None;
  }

  /** `resolve` */
  function Resolve(rows: map<Identity, Row>, id: Identity): Option<Action> {
    if id in rows && rows[id].status.Available? && rows[id].choice.Some? then Some(rows[id].choice.value.action) else None
  }

  /** What a projection promises: every rule has one row per mode and every special action one; each rule
      chose the best of its pool; equal choices are aliases of the first; and the projected candidates
      are exactly the available rows. */
  ghost predicate Projects(r: Request, rules: seq<Rule>, choose: Chooser, t: Audit, projected: seq<Candidate>) {
    && NoDup(t.listed) && t.listed == Plan(Modes(r), rules) + SpecialNames(r.candidates) && (forall id :: id in t.rows <==> id in t.listed)
    && (forall id :: id in t.rows && id.OfRule? ==> IsChoice(r, choose, id.rule, id.mode, t.rows[id].choice))
    && (forall k :: 0 <= k < |t.listed| ==> Explained(t, k))
    && (forall c :: c in projected ==> Retained(r, t, c))
    && (forall id :: id in t.rows && t.rows[id].status.Available? ==> Kept(projected, id))
    && (forall i, k :: 0 <= i < k < |projected| ==> projected[i].action != projected[k].action)
    && forall c :: c in r.candidates && Special(c) ==> c in projected
  }

  /** `project`: fails exactly when the rules are misconfigured, a custom rule names an illegal candidate,
      or nothing is left. */
  method Project(r: Request, rules: seq<Rule>, choose: Chooser)
    returns (failure: Option<Failure>, projected: seq<Candidate>, audit: Audit)
    requires Valid(r)
    ensures failure == Some(InvalidRules) <==> !Configured(r, rules)
    ensures failure == Some(IllegalCustom) <==>
              Configured(r, rules) && exists rule, mode :: rule in rules && mode in Modes(r) && NamesIllegal(r, choose, rule, mode)
    ensures failure.None? || failure == Some(NoAvailableRule) ==> Projects(r, rules, choose, audit, projected)
    ensures failure == Some(NoAvailableRule) ==> projected == []
    ensures failure.None? ==> projected != []
  {
    projected, audit := [], Audit(map[], []);
    if !Configured(r, rules) { return Some(InvalidRules), projected, audit; }
    hide Sound, NamesIllegal, Modes, Plan, Valid;
    var p := new Projection(r);
    DistinctRules(rules);
    ModesDistinct(r);
    var ok := p.ProjectRules(Modes(r), rules, choose);
    if !ok { return Some(IllegalCustom), projected, audit; }
    p.RulesSettled(Modes(r), rules, choose);
    p.KeepSpecial();
    projected, audit := p.projected, Audit(p.rows, p.listed);
    p.SoundParts();
    failure := if projected == [] then Some(NoAvailableRule) else None;
  }

  /** A retained rule resolves to the action it shows, and the action is one of the request's. */
  lemma ResolvesLegally(r: Request, rules: seq<Rule>, choose: Chooser, t: Audit, projected: seq<Candidate>, c: Candidate)
    requires Projects(r, rules, choose, t, projected) && c in projected
    ensures Resolve(t.rows, c.identity) == Some(c.action) && exists p :: p in r.candidates && p.action == c.action
  {
    assert Retained(r, t, c);
    assert t.rows[c.identity].choice.value in r.candidates;
  }

  /** Aliased and unavailable rules do not resolve; what they share an action with does. */
  lemma AliasesAreRepresented(r: Request, rules: seq<Rule>, choose: Chooser, t: Audit, projected: seq<Candidate>, id: Identity)
    requires Projects(r, rules, choose, t, projected) && id in t.rows
    ensures t.rows[id].choice.None? <==> t.rows[id].status.Unavailable?
    ensures !t.rows[id].status.Available? ==> Resolve(t.rows, id).None?
    ensures t.rows[id].choice.Some? ==> t.rows[id].representative.Some?
    ensures t.rows[id].choice.Some? ==> Resolve(t.rows, t.rows[id].representative.value) == Some(t.rows[id].choice.value.action)
  {
    var k :| 0 <= k < |t.listed| && t.listed[k] == id;
    assert Explained(t, k);
  }
}
