/** What the numbers of a candidate stand for, and what every built-in rule therefore looks for: the
    vectors of the four kinds of candidates, by the names of their fields. */
module Features {
  import opened Collections
  import opened RuleProjection

  /** A job as its vector shows it. */
  datatype JobView = JobView(due: real, work: real, waiting: real, rush: real, steps: real, risk: real,
                             kinds: (real, real, real, real), locked: real, queued: real, following: (real, real, real, real))

  /** The summary of a list of jobs. */
  datatype Summary = Summary(count: real, soonest: real, meanDue: real, late: real, work: real, meanWork: real, mostWork: real,
                             rush: real, meanRush: real, meanWait: real, longestWait: real, queued: real)

  /** A vehicle: `arrived` is the time since it got its target or came to it, `idle` the time without a task, which
      is shown at sources only. */
  datatype VehicleView = VehicleView(distance: real, carrying: real, serving: real, arrived: real, job: JobView, x: real, y: real, idle: real)

  datatype View =
    /** An owner a vehicle may ask: `ready` is its stock, `pre` and `machine` summarize its station. */
    | Owner(distance: real, quota: real, ready: Summary, commitments: real, pre: Summary, machine: Summary,
            down: real, processing: real, blocked: real, preWork: real, postJobs: real, currentWork: real)
    /** A vehicle that asks an owner or waits at one to unload. */
    | Applicant(vehicle: VehicleView)
    /** A job and a vehicle at a source: `feasible` counts the machines it could go to next, `nextWork` is the least
        work queued at one of them. */
    | Pair(job: JobView, carrier: VehicleView, feasible: real, nextWork: real, someFeasible: real, terminal: real)
    /** An operation in a mode. */
    | Operation(next: JobView, nominal: real, errorRate: real, timeScale: real, normal: real)

  function Padded(values: seq<real>): (f: seq<real>)
    requires |values| <= FEATURES
    ensures |f| == FEATURES && forall i :: 0 <= i < |values| ==> f[i] == values[i]
    ensures forall i :: |values| <= i < FEATURES ==> f[i] == 0.0
  {
    values + seq(FEATURES - |values|, _ => 0.0)
  }

  function Numbers(s: Summary): (f: seq<real>)
    ensures |f| == 12 && f[0] == s.count && f[1] == s.soonest
  {
    [s.count, s.soonest, s.meanDue, s.late, s.work, s.meanWork, s.mostWork, s.rush, s.meanRush, s.meanWait, s.longestWait, s.queued]
  }

  /** The vector of a candidate. */
  function Encode(v: View): (f: seq<real>)
    ensures |f| == FEATURES && forall i :: RULE_BITS_START <= i < FEATURES ==> f[i] == 0.0
  {
    match v
    case Owner(distance, quota, r, commitments, p, m, down, processing, blocked, preWork, postJobs, currentWork) =>
      Padded([distance, quota] + Numbers(r) + [commitments] + Numbers(p) + Numbers(m) + [down, processing, blocked, preWork, postJobs, currentWork])
    case Applicant(a) =>
      var j := a.job;
      Padded([a.distance, a.carrying, a.serving, a.arrived,
              j.due, j.work, j.waiting, j.rush, j.steps, j.risk, j.kinds.0, j.kinds.1, j.kinds.2, j.kinds.3, j.locked, j.queued,
              a.x, a.y, j.following.0, j.following.1, j.following.2, j.following.3, 0.0, a.idle])
    case Pair(j, a, feasible, nextWork, someFeasible, terminal) =>
      Padded([j.due, j.work, j.waiting, j.rush, j.steps, j.risk, j.kinds.0, j.kinds.1, j.kinds.2, j.kinds.3, j.locked, j.queued,
              j.following.0, j.following.1, j.following.2, j.following.3,
              a.distance, a.carrying, a.serving, a.arrived, a.x, a.y, feasible, nextWork, someFeasible, terminal])
    case Operation(j, nominal, errorRate, timeScale, normal) =>
      Padded([j.due, j.work, j.waiting, j.rush, j.steps, j.risk, j.kinds.0, j.kinds.1, j.kinds.2, j.kinds.3, j.locked, j.queued,
              nominal, errorRate, timeScale, normal])
  }

  /** Which candidates a request of this group and stage has. */
  predicate Suits(g: Group, s: Stage, v: View) {
    match (g, s)
    case (Dispatcher, Pickup) => v.Owner?
    case (Dispatcher, Delivery) => v.Owner?
    case (Pre, Accept) => v.Applicant?
    case (Post, Accept) => v.Applicant?
    case (Input, Accept) => v.Applicant?
    case (Pre, Service) => v.Applicant?
    case (Post, Service) => v.Pair?
    case (Input, Service) => v.Pair?
    case (Machine, Process) => v.Operation?
    case _ => false
  }

  function JobOf(v: View): JobView
    requires !v.Owner?
  {
    match v
    case Applicant(a) => a.job
    case Pair(j, _, _, _, _, _) => j
    case Operation(j, _, _, _, _) => j
  }

  /** What the rule wants least of. */
  function Merit(rule: Rule, v: View): Option<real> {
    match rule
    case Nearest => if v.Owner? then Some(v.distance) else if v.Applicant? then Some(v.vehicle.distance) else None
    case MostReadyStock => if v.Owner? then Some(-v.ready.count) else None
    case MostUrgentReadyStock => if v.Owner? then Some(v.ready.soonest) else None
    case FewestCommitments => if v.Owner? then Some(v.commitments) else None
    case LeastPreWork => if v.Owner? then Some(v.preWork) else None
    case FewestPreJobs => if v.Owner? then Some(v.pre.count) else None
    case JobEdd => if v.Owner? then None else Some(JobOf(v).due)
    case LeastRemaining => if v.Owner? then None else Some(JobOf(v).work)
    case MostRemaining => if v.Owner? then None else Some(-JobOf(v).work)
    case LongestQueue => if v.Owner? then None else Some(-JobOf(v).waiting)
    case LongestIdle => if v.Applicant? then Some(-v.vehicle.idle) else None
    case OldestArrival => if v.Applicant? then Some(-v.vehicle.arrived) else None
    case MostFeasible => if v.Pair? then Some(-v.feasible) else None
    case LeastNextPreWork => if v.Pair? then Some(v.nextWork) else None
    case ShortestProcessing => if v.Operation? then Some(v.nominal) else None
    case Custom(_) => None
  }

  lemma OwnerNames(v: View)
    requires v.Owner?
    ensures var f := Encode(v);
            f[0] == v.distance && f[2] == v.ready.count && f[3] == v.ready.soonest && f[14] == v.commitments && f[15] == v.pre.count && f[42] == v.preWork
  {
    var ready := [v.distance, v.quota] + Numbers(v.ready);
    var asked := ready + [v.commitments];
    var pre := asked + Numbers(v.pre);
    var machine := pre + Numbers(v.machine);
    var all := machine + [v.down, v.processing, v.blocked, v.preWork, v.postJobs, v.currentWork];
    assert |ready| == 14 && |asked| == 15 && |pre| == 27 && |machine| == 39 && |all| == 45;
    assert ready[0] == v.distance && ready[2] == v.ready.count && ready[3] == v.ready.soonest && asked[14] == v.commitments && pre[15] == v.pre.count;
    assert all[42] == v.preWork && all[15] == pre[15] && all[14] == asked[14] && all[2] == ready[2] && all[3] == ready[3] && all[0] == ready[0];
    assert Encode(v) == Padded(all);
    hide Numbers;
  }

  lemma ApplicantNames(v: View)
    requires v.Applicant?
    ensures var f, a := Encode(v), v.vehicle;
            f[0] == a.distance && f[3] == a.arrived && f[4] == a.job.due && f[5] == a.job.work && f[23] == a.idle
  {
  }

  lemma PairNames(v: View)
    requires v.Pair?
    ensures var f, j := Encode(v), v.job;
            && f[0] == j.due && f[1] == j.work && f[2] == j.waiting && f[19] == v.carrier.arrived
            && f[22] == v.feasible && f[23] == v.nextWork && f[24] == v.someFeasible && f[25] == v.terminal
  {
  }

  lemma OperationNames(v: View)
    requires v.Operation?
    ensures var f := Encode(v); f[0] == v.next.due && f[2] == v.next.waiting && f[12] == v.nominal
  {
  }

  /** The stages at which the catalogs list the rules. */
  lemma CatalogMeans(g: Group, s: Stage, rule: Rule)
    requires rule in Catalog(g, s)
    ensures !rule.Custom?
    ensures rule in {MostReadyStock, MostUrgentReadyStock, FewestCommitments} ==> g.Dispatcher? && s.Pickup?
    ensures rule in {LeastPreWork, FewestPreJobs} ==> g.Dispatcher? && s.Delivery?
    ensures rule.Nearest? ==> g.Dispatcher? || s.Accept?
    ensures rule.LongestIdle? ==> s.Accept? && (g.Post? || g.Input?)
    ensures rule.OldestArrival? ==> g.Pre? && s.Service?
    ensures rule in {MostRemaining, MostFeasible, LeastNextPreWork} ==> s.Service? && (g.Post? || g.Input?)
    ensures rule.ShortestProcessing? ==> g.Machine?
    ensures rule.LeastRemaining? ==> g.Pre? || (s.Service? && (g.Post? || g.Input?))
    ensures rule.LongestQueue? ==> g.Machine? || (s.Service? && (g.Post? || g.Input?))
    ensures rule.JobEdd? ==> g.Pre? || g.Machine? || (s.Service? && (g.Post? || g.Input?))
  {
  }

  /** Every rule of a catalog scores candidates of its stage by what it is named after. */
  lemma ScoreIsMerit(r: Request, rule: Rule, v: View, c: Candidate)
    requires Suits(r.group, r.stage, v) && rule in Catalog(r.group, r.stage) && c.features == Encode(v)
    ensures Merit(rule, v) == Some(Score(r, rule, c))
  {
    CatalogMeans(r.group, r.stage, rule);
    hide Encode, Catalog;
    match v
    case Owner(_, _, _, _, _, _, _, _, _, _, _, _) => OwnerNames(v);
    case Applicant(_) => ApplicantNames(v);
    case Pair(_, _, _, _, _, _) => PairNames(v);
    case Operation(_, _, _, _, _) => OperationNames(v);
  }

  /** Ties between pairs of a job and a vehicle go to the vehicle that arrived first. */
  lemma AgeIsArrival(r: Request, v: View, c: Candidate)
    requires Suits(r.group, r.stage, v) && c.features == Encode(v)
    ensures Age(r, c) == if v.Pair? then -v.carrier.arrived else 0.0
  {
  }

  /** The candidates show these views. */
  ghost predicate Shown(r: Request, views: map<Candidate, View>) {
    forall c :: c in r.candidates && c.action.Ordinary? ==> c in views && Suits(r.group, r.stage, views[c]) && c.features == Encode(views[c])
  }

  /** A candidate of the mode. */
  predicate Asked(r: Request, mode: Option<Word>, c: Candidate) {
    && c in r.candidates && c.action.Ordinary?
    && (mode.Some? ==> |c.action.parts| == 2 && c.action.parts[1] == mode.value)
  }

  /** The station rows with this tag. */
  ghost function Rows(stations: seq<seq<real>>, tag: real): set<int> {
    set i | 0 <= i < |stations| && |stations[i]| > 0 && stations[i][0] == tag
  }

  /** Every destination is a machine with its three station rows. */
  ghost predicate AllMachines(r: Request) {
    var ordinary := set i | 0 <= i < |r.candidates| && r.candidates[i].action.Ordinary?;
    && ordinary != {} && |r.stations| == 3 * |ordinary|
    && |Rows(r.stations, 1.0)| == |ordinary| && |Rows(r.stations, 2.0)| == |ordinary| && |Rows(r.stations, 3.0)| == |ordinary|
  }

  /** What a rule may choose from: only owners with stock for urgency, only unfinished jobs with a machine to go to
      for the rules about it, machines only for the rules about their PRE, and idleness only where it differs. */
  ghost predicate Allows(r: Request, rule: Rule, mode: Option<Word>, views: map<Candidate, View>, v: View) {
    && (rule.MostUrgentReadyStock? ==> v.Owner? && v.ready.count > 0.0)
    && (rule.MostFeasible? || rule.LeastNextPreWork? ==> v.Pair? && v.someFeasible == 1.0 && v.terminal == 0.0)
    && (rule.LeastPreWork? || rule.FewestPreJobs? ==> AllMachines(r))
    && (rule.LongestIdle? ==> exists c, x :: Asked(r, mode, c) && Asked(r, mode, x) && c in views && x in views
                                             && views[c].Applicant? && views[x].Applicant? && views[c].vehicle.idle != views[x].vehicle.idle)
  }

  lemma {:induction false} TaggedMeans(rows: seq<seq<real>>, tag: real)
    ensures Tagged(rows, tag) == |Rows(rows, tag)|
  {
    if rows != [] {
      var n := |rows| - 1;
      TaggedMeans(rows[..n], tag);
      RowsGrow(rows, n, tag);
      hide Rows;
    }
  }

  lemma RowsGrow(rows: seq<seq<real>>, n: nat, tag: real)
    requires |rows| == n + 1
    ensures Rows(rows, tag) == Rows(rows[..n], tag) + (if |rows[n]| > 0 && rows[n][0] == tag then {n} else {}) && n !in Rows(rows[..n], tag)
  {
  }

  lemma {:induction false} FilterCounts(cs: seq<Candidate>, keep: Candidate -> bool)
    ensures |Filter(cs, keep)| == |set i | 0 <= i < |cs| && keep(cs[i])|
  {
    if cs != [] {
      var n := |cs| - 1;
      FilterCounts(cs[..n], keep);
      PassingGrow(cs, n, keep);
    }
  }

  lemma PassingGrow(cs: seq<Candidate>, n: nat, keep: Candidate -> bool)
    requires |cs| == n + 1
    ensures |set i | 0 <= i < |cs| && keep(cs[i])| == |set i | 0 <= i < |cs[..n]| && keep(cs[..n][i])| + if keep(cs[n]) then 1 else 0
  {
    var less := set i | 0 <= i < |cs[..n]| && keep(cs[..n][i]);
    assert (set i | 0 <= i < |cs| && keep(cs[i])) == less + if keep(cs[n]) then {n} else {};
  }

  lemma DestinationsMean(r: Request)
    ensures MachineDestinations(r) <==> AllMachines(r)
  {
    var ordinary := set i | 0 <= i < |r.candidates| && r.candidates[i].action.Ordinary?;
    FilterCounts(r.candidates, c => !Special(c));
    assert ordinary == set i | 0 <= i < |r.candidates| && (c => !Special(c))(r.candidates[i]);
    TaggedMeans(r.stations, 1.0);
    TaggedMeans(r.stations, 2.0);
    TaggedMeans(r.stations, 3.0);
    assert ordinary == {} <==> |ordinary| == 0;
    hide Rows, Tagged, OrdinaryOf;
  }

  /** What the pool asks of a candidate's numbers. */
  ghost predicate Passes(r: Request, rule: Rule, mode: Option<Word>, c: Candidate) {
    && (rule.MostUrgentReadyStock? ==> Feature(c, 2) > 0.0)
    && (rule.MostFeasible? || rule.LeastNextPreWork? ==> Feature(c, 24) == 1.0 && Feature(c, 25) == 0.0)
    && (rule.LeastPreWork? || rule.FewestPreJobs? ==> MachineDestinations(r))
    && (rule.LongestIdle? ==> !ConstantIdle(Eligible(r, mode)))
  }

  lemma PoolPasses(r: Request, rule: Rule, mode: Option<Word>, c: Candidate)
    requires rule in Catalog(r.group, r.stage)
    ensures c in Pool(r, rule, mode) <==> c in Eligible(r, mode) && Passes(r, rule, mode, c)
  {
    hide MachineDestinations, ConstantIdle, Eligible, Feature;
  }

  lemma PassingIsAllowed(r: Request, rule: Rule, mode: Option<Word>, views: map<Candidate, View>, c: Candidate)
    requires Valid(r) && Shown(r, views) && rule in Catalog(r.group, r.stage) && Asked(r, mode, c)
    ensures Passes(r, rule, mode, c) <==> Allows(r, rule, mode, views, views[c])
  {
    hide *;
    CatalogMeans(r.group, r.stage, rule);
    DestinationsMean(r);
    if rule.LongestIdle? { IdleMeans(r, mode, views); }
    CandidateNumbers(r, mode, views, c);
    NumbersPass(r, rule, mode, views, c, views[c]);
  }

  /** The numbers the pools look at. */
  lemma CandidateNumbers(r: Request, mode: Option<Word>, views: map<Candidate, View>, c: Candidate)
    requires Valid(r) && Shown(r, views) && Asked(r, mode, c)
    ensures c in views && Suits(r.group, r.stage, views[c])
    ensures var v := views[c];
            && (v.Owner? ==> Feature(c, 2) == v.ready.count)
            && (v.Pair? ==> Feature(c, 24) == v.someFeasible && Feature(c, 25) == v.terminal)
  {
    hide Encode, Valid;
    CandidateWidth(r, c);
    var v := views[c];
    if v.Owner? { OwnerNames(v); }
    if v.Pair? { PairNames(v); }
  }

  lemma NumbersPass(r: Request, rule: Rule, mode: Option<Word>, views: map<Candidate, View>, c: Candidate, v: View)
    requires Suits(r.group, r.stage, v) && (MachineDestinations(r) <==> AllMachines(r))
    requires rule.MostUrgentReadyStock? ==> r.group.Dispatcher? && r.stage.Pickup?
    requires rule.MostFeasible? || rule.LeastNextPreWork? ==> r.stage.Service? && (r.group.Post? || r.group.Input?)
    requires v.Owner? ==> Feature(c, 2) == v.ready.count
    requires v.Pair? ==> Feature(c, 24) == v.someFeasible && Feature(c, 25) == v.terminal
    requires rule.LongestIdle? ==> (!ConstantIdle(Eligible(r, mode)) <==>
               exists c, x :: Asked(r, mode, c) && Asked(r, mode, x) && c in views && x in views
                              && views[c].Applicant? && views[x].Applicant? && views[c].vehicle.idle != views[x].vehicle.idle)
    ensures Passes(r, rule, mode, c) <==> Allows(r, rule, mode, views, v)
  {
    hide MachineDestinations, AllMachines, ConstantIdle, Eligible, Asked, Feature;
  }

  /** A rule may choose from exactly the candidates of the mode that it allows. */
  lemma PoolMeans(r: Request, rule: Rule, mode: Option<Word>, views: map<Candidate, View>, c: Candidate)
    requires Valid(r) && Shown(r, views) && rule in Catalog(r.group, r.stage)
    ensures c in Pool(r, rule, mode) <==> Asked(r, mode, c) && Allows(r, rule, mode, views, views[c])
  {
    EligibleMeans(r, mode);
    PoolPasses(r, rule, mode, c);
    if Asked(r, mode, c) { PassingIsAllowed(r, rule, mode, views, c); }
    hide Encode, Valid, Catalog, Pool, Eligible, Allows, Passes;
  }

  lemma EligibleMeans(r: Request, mode: Option<Word>)
    ensures forall c :: c in Eligible(r, mode) <==> Asked(r, mode, c)
  {
  }

  lemma IdleMeans(r: Request, mode: Option<Word>, views: map<Candidate, View>)
    requires Valid(r) && Shown(r, views) && LongestIdle in Catalog(r.group, r.stage)
    ensures !ConstantIdle(Eligible(r, mode)) <==>
            exists c, x :: Asked(r, mode, c) && Asked(r, mode, x) && c in views && x in views
                           && views[c].Applicant? && views[x].Applicant? && views[c].vehicle.idle != views[x].vehicle.idle
  {
    CatalogMeans(r.group, r.stage, LongestIdle);
    EligibleMeans(r, mode);
    forall c | Asked(r, mode, c) ensures c in views && views[c].Applicant? && Feature(c, 23) == views[c].vehicle.idle { ApplicantNames(views[c]); }
    hide Encode, Valid, Catalog, Eligible, Asked, Feature;
  }

  /** The candidate a rule picks is one it allows, and no other of its pool has less of what it is named after; of two
      with as little a pair whose vehicle arrived later, and otherwise the later name, is not picked. */
  lemma PickIsBest(r: Request, rule: Rule, mode: Option<Word>, views: map<Candidate, View>, best: Candidate, other: Candidate)
    requires Valid(r) && Shown(r, views) && rule in Catalog(r.group, r.stage)
    requires Minimal(r, rule, Pool(r, rule, mode), best) && other in Pool(r, rule, mode)
    ensures Asked(r, mode, best) && Asked(r, mode, other) && Allows(r, rule, mode, views, views[best])
    ensures var v, w := views[best], views[other]; var x, y := Merit(rule, v), Merit(rule, w);
            && x.Some? && y.Some? && x.value <= y.value
            && (x.value == y.value && v.Pair? ==> w.Pair? && v.carrier.arrived >= w.carrier.arrived)
            && (x.value == y.value && (v.Pair? && w.Pair? ==> v.carrier.arrived == w.carrier.arrived) ==>
                  best.identity.Physical? && other.identity.Physical? && best.identity.n <= other.identity.n)
  {
    PoolMeans(r, rule, mode, views, best);
    PoolMeans(r, rule, mode, views, other);
    ScoreIsMerit(r, rule, views[best], best);
    ScoreIsMerit(r, rule, views[other], other);
    AgeIsArrival(r, views[best], best);
    AgeIsArrival(r, views[other], other);
    assert Preferred(r, rule, best, other);
    hide Encode, Score, Merit, Allows, Age;
  }
}
