/** What earns a route its place in the returned order, aspect by aspect: the family,
    the strategy's table of cost tiers, the task's tags, tool calling, the local
    runtime, the direct provider's headroom, and last the lane or the profile file. */
module RoutePlacement {
  import opened Text
  import opened StableSort
  import opened RouteOrdering
  import MR = ModelResolver
  import RR = ResolverRanking

  // ----- one queue, sorted -----

  /** The routes in the order in which ties fall: the profile file's, or the local
      routes and then the lane's. */
  function Queue(cfg: Config, st: State, req: Request): seq<Route> {
    var routes, reordered := Filter(Gate(cfg, st, req), cfg.routes), Reordered(cfg, st, req, GatedCloud(cfg, st, req));
    if reordered == [] then routes else Filter(Local(), routes) + reordered
  }

  function Dealing(cfg: Config, st: State, req: Request): map<string, int> {
    var cloud := GatedCloud(cfg, st, req);
    Deal(Anchors(cloud, Reordered(cfg, st, req, cloud)), Reordered(cfg, st, req, cloud))
  }

  function Scoring(cfg: Config, st: State, req: Request): Route -> int {
    Score(cfg, st, req.task, Dealing(cfg, st, req))
  }

  lemma ReorderedIsCloud(cfg: Config, st: State, req: Request)
    requires CacheSane(st.synthesized)
    ensures forall r :: r in Reordered(cfg, st, req, GatedCloud(cfg, st, req)) ==> r.IsCloud()
  {
    var cloud := GatedCloud(cfg, st, req);
    if cfg.capabilityRouting {
      ReorderedPermutes(cfg, st, req, cloud);
      SynthesizedMembers(cfg, st, req.task, cloud);
      var passing := SynthesizedPassing(cfg, st, req);
      assert multiset(Reordered(cfg, st, req, cloud)) == multiset(cloud + passing);
      SameElements(Reordered(cfg, st, req, cloud), cloud + passing);
    }
  }

  lemma FamiliesOfConcat(local: seq<Route>, cloud: seq<Route>)
    requires (forall r :: r in local ==> !r.IsCloud()) && forall r :: r in cloud ==> r.IsCloud()
    ensures Filter(Local(), local + cloud) == local && Filter(Cloud(), local + cloud) == cloud
  {
    FilterConcat(Local(), local, cloud);
    FilterConcat(Cloud(), local, cloud);
    FilterAll(Local(), local);
    FilterNone(Local(), cloud);
    FilterNone(Cloud(), local);
    FilterAll(Cloud(), cloud);
  }

  function InFamilies(strategy: Strategy, score: Route -> int, queue: seq<Route>): seq<Route> {
    Arrange(strategy, score, queue, Filter(Local(), queue), Filter(Cloud(), queue))
  }

  lemma OrderedIsSortedQueue(cfg: Config, st: State, req: Request)
    requires CacheSane(st.synthesized)
    ensures OrderedRoutes(cfg, st, req) == InFamilies(cfg.strategy, Scoring(cfg, st, req), Queue(cfg, st, req))
  {
    var routes, cloud := Filter(Gate(cfg, st, req), cfg.routes), GatedCloud(cfg, st, req);
    var reordered := Reordered(cfg, st, req, cloud);
    if reordered != [] {
      ReorderedIsCloud(cfg, st, req);
      FamiliesOfConcat(Filter(Local(), routes), reordered);
    }
  }

  /** Two routes the strategy does not keep apart. */
  predicate Together(strategy: Strategy, x: Route, y: Route) {
    strategy.PreferLocal? || strategy.PreferCloudQuality? ==> x.IsCloud() == y.IsCloud()
  }

  lemma {:induction false} FilterKeepsOrder<T(!new)>(p: T -> bool, s: seq<T>, x: T, y: T)
    requires Precedes(s, x, y) && p(x) && p(y)
    ensures Precedes(Filter(p, s), x, y)
  {
    var i, j :| 0 <= i < j < |s| && s[i] == x && s[j] == y;
    assert s == s[..j] + s[j..];
    FilterConcat(p, s[..j], s[j..]);
    assert s[..j][i] == x && x in s[..j] && s[j..][0] == y && y in s[j..];
    PrecedesAcross(Filter(p, s[..j]), Filter(p, s[j..]), x, y);
  }

  lemma SortPlaces(score: Route -> int, s: seq<Route>, x: Route, y: Route)
    requires x in s && y in s && Distinct(s)
    requires score(x) > score(y) || (score(x) == score(y) && Precedes(s, x, y))
    ensures Precedes(SortByScore(score, s), x, y)
  {
    KeyOrders(score, score);
    if score(x) > score(y) {
      SortOrders(Descending(score), s);
      SortPermutes(Descending(score), s);
      OrderedPrecedes(Descending(score), SortByScore(score, s), x, y);
    } else {
      SortStable(Descending(score), s, x, y);
    }
  }

  lemma FilterDistinct(p: Route -> bool, s: seq<Route>)
    requires Distinct(s)
    ensures Distinct(Filter(p, s))
  {
    OnceIffDistinct(s);
    FilterFewer(p, s);
    FewerOnce(Filter(p, s), s);
    OnceIffDistinct(Filter(p, s));
  }

  lemma {:induction false} FilterFewer(p: Route -> bool, s: seq<Route>)
    ensures multiset(Filter(p, s)) <= multiset(s)
  {
    if s != [] {
      FilterFewer(p, s[1..]);
      ConsMultiset(s[0], s[1..]);
      assert s == [s[0]] + s[1..];
    }
  }

  lemma FamilyPlaces(strategy: Strategy, score: Route -> int, queue: seq<Route>, x: Route, y: Route)
    requires x in queue && y in queue && Distinct(queue) && Together(strategy, x, y)
    requires score(x) > score(y) || (score(x) == score(y) && Precedes(queue, x, y))
    ensures Precedes(InFamilies(strategy, score, queue), x, y)
  {
    var family := if x.IsCloud() then Cloud() else Local();
    if strategy.PreferLocal? || strategy.PreferCloudQuality? {
      var kin := Filter(family, queue);
      FilterDistinct(family, queue);
      if Precedes(queue, x, y) {
        FilterKeepsOrder(family, queue, x, y);
      }
      SortPlaces(score, kin, x, y);
      var local, cloud := SortByScore(score, Filter(Local(), queue)), SortByScore(score, Filter(Cloud(), queue));
      PrecedesInConcat(local, cloud, x, y);
      PrecedesInConcat(cloud, local, x, y);
    } else {
      SortPlaces(score, queue, x, y);
    }
  }

  // ----- the points, difference by difference -----

  /** The strategies' tables; a tier that is not listed counts nothing. */
  function CostTiers(strategy: Strategy): map<string, int> {
    match strategy
    case BestValue => map["local" := 120, "low_cost" := 40, "premium" := 0]
    case PreferLocal => map["local" := 300, "low_cost" := 75, "premium" := 0]
    case PreferCloudQuality => map["local" := 0, "low_cost" := 250, "premium" := 300]
    case LocalOnly | CloudOnly => map["local" := 0, "low_cost" := 0, "premium" := 0]
  }

  function InTable(table: map<string, int>, tier: string): int {
    if tier in table then table[tier] else 0
  }

  /** One of the tags is the task, blanks around and case aside. */
  ghost predicate Tagged(task: Option<string>, tags: seq<string>) {
    task.Some? && task.value != "" && exists i :: 0 <= i < |tags| && Lower(Strip(tags[i])) == Lower(Strip(task.value))
  }

  ghost predicate CallsTools(r: Route, quality: string) {
    r.toolQuality == quality && exists i :: 0 <= i < |r.capabilities| && Lower(Strip(r.capabilities[i])) == "tools"
  }

  /** The runtime manager has looked at the local route and found its model there, or not. */
  ghost predicate Seen(cfg: Config, st: State, r: Route, available: bool) {
    && cfg.managed && r.costTier == "local" && r.name in st.health
    && st.health[r.name].checked && st.health[r.name].modelAvailable == available
  }

  /** The route goes to its model's provider directly, which has so much budget left. */
  ghost predicate Direct(r: Route) {
    r.preferredId != "" && r.preferredId == r.budgetId
  }

  ghost function One(b: bool): int {
    if b then 1 else 0
  }

  ghost function HeadroomPoints(cfg: Config, r: Route): int {
    if Direct(r) then Trunc(50.0 * cfg.headroom(r.preferredId)) else 0
  }

  /** By how much `x` is ahead of `y` when their base priorities are the same. */
  ghost function Lead(cfg: Config, st: State, task: Option<string>, x: Route, y: Route): int {
    InTable(CostTiers(cfg.strategy), x.costTier) - InTable(CostTiers(cfg.strategy), y.costTier)
    + 1000 * (One(Tagged(task, x.recommendedFor)) - One(Tagged(task, y.recommendedFor)))
    - 2000 * (One(Tagged(task, x.avoidFor)) - One(Tagged(task, y.avoidFor)))
    + 250 * (One(CallsTools(x, "strong")) - One(CallsTools(y, "strong")))
    + 100 * (One(CallsTools(x, "ok")) - One(CallsTools(y, "ok")))
    + cfg.warmBonus * (One(Seen(cfg, st, x, true)) - One(Seen(cfg, st, y, true)))
    - cfg.unavailablePenalty * (One(Seen(cfg, st, x, false)) - One(Seen(cfg, st, y, false)))
    + HeadroomPoints(cfg, x) - HeadroomPoints(cfg, y)
  }

  lemma TaggedIsMatch(task: Option<string>, tags: seq<string>)
    ensures TaskMatches(task, tags) <==> Tagged(task, tags)
  {
    if TaskMatches(task, tags) {
      var t :| t in tags && Lower(Strip(t)) == Lower(Strip(task.value));
      var i :| 0 <= i < |tags| && tags[i] == t;
    }
  }

  lemma ToolsAreTools(r: Route)
    ensures ToolBonus(r) == 250 * One(CallsTools(r, "strong")) + 100 * One(CallsTools(r, "ok"))
  {
    if exists c :: c in r.capabilities && Lower(Strip(c)) == "tools" {
      var c :| c in r.capabilities && Lower(Strip(c)) == "tools";
      var i :| 0 <= i < |r.capabilities| && r.capabilities[i] == c;
    }
  }

  lemma RuntimeIsSeen(cfg: Config, st: State, r: Route)
    ensures RuntimeAdjustment(cfg, st, r) == cfg.warmBonus * One(Seen(cfg, st, r, true)) - cfg.unavailablePenalty * One(Seen(cfg, st, r, false))
  {
  }

  lemma TierIsListed(strategy: Strategy, tier: string)
    ensures CostAdjustment(strategy, tier) == InTable(CostTiers(strategy), tier)
  {
  }

  lemma MeritIsLead(cfg: Config, st: State, task: Option<string>, x: Route, y: Route)
    ensures Merit(cfg, st, task)(x) - Merit(cfg, st, task)(y) == Lead(cfg, st, task, x, y)
  {
    TierIsListed(cfg.strategy, x.costTier);
    TierIsListed(cfg.strategy, y.costTier);
    TaggedIsMatch(task, x.recommendedFor);
    TaggedIsMatch(task, y.recommendedFor);
    TaggedIsMatch(task, x.avoidFor);
    TaggedIsMatch(task, y.avoidFor);
    ToolsAreTools(x);
    ToolsAreTools(y);
    RuntimeIsSeen(cfg, st, x);
    RuntimeIsSeen(cfg, st, y);
    Distribute(cfg.warmBonus, One(Seen(cfg, st, x, true)), One(Seen(cfg, st, y, true)));
    Distribute(cfg.unavailablePenalty, One(Seen(cfg, st, x, false)), One(Seen(cfg, st, y, false)));
  }

  lemma Distribute(a: int, b: int, c: int)
    ensures a * (b - c) == a * b - a * c
  {
  }

  // ----- exactly who stands before whom -----

  /** By how much `x` is ahead, its priority or the one the lane dealt it included. */
  ghost function Ahead(cfg: Config, st: State, req: Request, x: Route, y: Route): int {
    Base(Dealing(cfg, st, req))(x) - Base(Dealing(cfg, st, req))(y) + Lead(cfg, st, req.task, x, y)
  }

  lemma QueueFacts(cfg: Config, st: State, req: Request)
    requires WellConfigured(cfg) && CacheSane(st.synthesized)
    ensures Distinct(Queue(cfg, st, req)) && multiset(OrderedRoutes(cfg, st, req)) == multiset(Queue(cfg, st, req))
    ensures Distinct(OrderedRoutes(cfg, st, req))
  {
    var queue, ordered := Queue(cfg, st, req), OrderedRoutes(cfg, st, req);
    QueueNames(cfg, st, req);
    OrderedIsSortedQueue(cfg, st, req);
    FilterSplits(Local(), Cloud(), queue);
    ArrangePermutes(cfg.strategy, Scoring(cfg, st, req), queue, Filter(Local(), queue), Filter(Cloud(), queue));
    OnceIffDistinct(queue);
    FewerOnce(ordered, queue);
    OnceIffDistinct(ordered);
  }

  lemma QueueNames(cfg: Config, st: State, req: Request)
    requires WellConfigured(cfg) && CacheSane(st.synthesized)
    ensures DistinctNames(Queue(cfg, st, req)) && Distinct(Queue(cfg, st, req))
  {
    var routes := Filter(Gate(cfg, st, req), cfg.routes);
    if Reordered(cfg, st, req, GatedCloud(cfg, st, req)) != [] {
      PoolReordered(cfg, st, req);
    } else {
      NamesOnce(cfg.routes);
      FlatMapOfFilter(Name(), Gate(cfg, st, req), cfg.routes);
      FewerOnce(FlatMap(Name(), routes), FlatMap(Name(), cfg.routes));
      NamesOnce(routes);
    }
  }

  lemma AheadIsScore(cfg: Config, st: State, req: Request, x: Route, y: Route)
    ensures Scoring(cfg, st, req)(x) - Scoring(cfg, st, req)(y) == Ahead(cfg, st, req, x, y)
  {
    MeritIsLead(cfg, st, req.task, x, y);
  }

  lemma OneWayOrTheOther<T(!new)>(s: seq<T>, x: T, y: T)
    requires x in s && y in s && x != y
    ensures Precedes(s, x, y) || Precedes(s, y, x)
  {
    var i :| 0 <= i < |s| && s[i] == x;
    var j :| 0 <= j < |s| && s[j] == y;
    if i < j {
      assert Precedes(s, x, y);
    } else {
      assert Precedes(s, y, x);
    }
  }

  lemma NotBothWays<T(!new)>(s: seq<T>, x: T, y: T)
    requires Distinct(s) && Precedes(s, x, y)
    ensures !Precedes(s, y, x)
  {
  }

  /** `x` has the better claim: more points, or as many and an earlier place in the queue. */
  ghost predicate Claims(cfg: Config, st: State, req: Request, x: Route, y: Route) {
    Ahead(cfg, st, req, x, y) > 0 || (Ahead(cfg, st, req, x, y) == 0 && Precedes(Queue(cfg, st, req), x, y))
  }

  lemma ClaimPrecedes(cfg: Config, st: State, req: Request, x: Route, y: Route)
    requires WellConfigured(cfg) && CacheSane(st.synthesized)
    requires x in OrderedRoutes(cfg, st, req) && y in OrderedRoutes(cfg, st, req) && Together(cfg.strategy, x, y)
    requires Claims(cfg, st, req, x, y)
    ensures Precedes(OrderedRoutes(cfg, st, req), x, y)
  {
    QueueFacts(cfg, st, req);
    SameElements(OrderedRoutes(cfg, st, req), Queue(cfg, st, req));
    OrderedIsSortedQueue(cfg, st, req);
    AheadIsScore(cfg, st, req, x, y);
    FamilyPlaces(cfg.strategy, Scoring(cfg, st, req), Queue(cfg, st, req), x, y);
  }

  /** Of two returned routes that the strategy does not keep apart, one stands before
      the other exactly when it is ahead in points, or level and earlier in the queue. */
  lemma PrecedesIffAhead(cfg: Config, st: State, req: Request, x: Route, y: Route)
    requires WellConfigured(cfg) && CacheSane(st.synthesized)
    requires x in OrderedRoutes(cfg, st, req) && y in OrderedRoutes(cfg, st, req) && x != y && Together(cfg.strategy, x, y)
    ensures Precedes(OrderedRoutes(cfg, st, req), x, y) <==> Claims(cfg, st, req, x, y)
  {
    QueueFacts(cfg, st, req);
    SameElements(OrderedRoutes(cfg, st, req), Queue(cfg, st, req));
    OneWayOrTheOther(Queue(cfg, st, req), x, y);
    AheadIsScore(cfg, st, req, x, y);
    AheadIsScore(cfg, st, req, y, x);
    if Claims(cfg, st, req, x, y) {
      ClaimPrecedes(cfg, st, req, x, y);
    } else {
      ClaimPrecedes(cfg, st, req, y, x);
      NotBothWays(OrderedRoutes(cfg, st, req), y, x);
    }
  }

  /** `prefer_local` returns every local route before every cloud route, and
      `prefer_cloud_quality` the other way round. */
  lemma FamiliesInTurn(cfg: Config, st: State, req: Request, i: nat, j: nat)
    requires CacheSane(st.synthesized) && i < j < |OrderedRoutes(cfg, st, req)|
    ensures var s := OrderedRoutes(cfg, st, req);
            && (cfg.strategy.PreferLocal? && s[i].IsCloud() ==> s[j].IsCloud())
            && (cfg.strategy.PreferCloudQuality? && !s[i].IsCloud() ==> !s[j].IsCloud())
  {
    OrderedIsSortedQueue(cfg, st, req);
    var queue, score := Queue(cfg, st, req), Scoring(cfg, st, req);
    var local, cloud := Filter(Local(), queue), Filter(Cloud(), queue);
    SortPermutes(Descending(score), local);
    SortPermutes(Descending(score), cloud);
    OneAfterTheOther(SortByScore(score, local), SortByScore(score, cloud), Cloud(), i, j);
    OneAfterTheOther(SortByScore(score, cloud), SortByScore(score, local), Local(), i, j);
  }

  lemma OneAfterTheOther(a: seq<Route>, b: seq<Route>, second: Route -> bool, i: nat, j: nat)
    requires (forall r :: r in a ==> !second(r)) && forall r :: r in b ==> second(r)
    ensures i < j < |a + b| && second((a + b)[i]) ==> second((a + b)[j])
  {
    if i < j < |a + b| {
      assert i < |a| ==> (a + b)[i] in a;
      assert j >= |a| ==> (a + b)[j] in b;
    }
  }

  // ----- whose base is whose -----

  lemma {:induction false} DealtAreDealtTo(anchors: seq<int>, reordered: seq<Route>)
    ensures forall k :: k in Deal(anchors, reordered) ==> exists r :: r in reordered && r.name == k
  {
    if reordered != [] {
      var n := |reordered| - 1;
      DealtAreDealtTo(anchors, reordered[..n]);
      assert reordered == reordered[..n] + [reordered[n]];
      assert reordered[n] in reordered;
    }
  }

  /** Local routes keep their own priority; so does everybody when no lane decides. */
  lemma OwnPriority(cfg: Config, st: State, req: Request, x: Route)
    requires WellConfigured(cfg) && CacheSane(st.synthesized) && x in OrderedRoutes(cfg, st, req)
    requires !x.IsCloud() || !cfg.capabilityRouting
    ensures Base(Dealing(cfg, st, req))(x) == x.priority
  {
    var reordered := Reordered(cfg, st, req, GatedCloud(cfg, st, req));
    DealtAreDealtTo(Anchors(GatedCloud(cfg, st, req), reordered), reordered);
    forall r | r in reordered ensures r.name != x.name {
      QueueFacts(cfg, st, req);
      SameElements(OrderedRoutes(cfg, st, req), Queue(cfg, st, req));
      QueueNames(cfg, st, req);
      ReorderedIsCloud(cfg, st, req);
      NamesApart(Queue(cfg, st, req), r, x);
    }
  }

  /** Of two cloud routes the lane put the first one gets no smaller number. */
  lemma LaneDealsDown(cfg: Config, st: State, req: Request, x: Route, y: Route)
    requires WellConfigured(cfg) && CacheSane(st.synthesized) && cfg.capabilityRouting
    requires Precedes(Reordered(cfg, st, req, GatedCloud(cfg, st, req)), x, y)
    ensures Base(Dealing(cfg, st, req))(x) >= Base(Dealing(cfg, st, req))(y)
    ensures Precedes(Queue(cfg, st, req), x, y)
  {
    RedealPermutesPriorities(cfg, st, req);
    PrecedesInConcat(Filter(Local(), Filter(Gate(cfg, st, req), cfg.routes)), Reordered(cfg, st, req, GatedCloud(cfg, st, req)), x, y);
  }

  // ----- better in every way -----

  /** Under each strategy, which cost tiers come before which. */
  predicate CheaperKind(strategy: Strategy, x: string, y: string) {
    match strategy
    case BestValue | PreferLocal => (x == "local" && y != "local") || (x == "low_cost" && y != "local" && y != "low_cost")
    case PreferCloudQuality => (x == "premium" && y != "premium") || (x == "low_cost" && y != "premium" && y != "low_cost")
    case LocalOnly | CloudOnly => false
  }

  predicate SameKind(strategy: Strategy, x: string, y: string) {
    !CheaperKind(strategy, x, y) && !CheaperKind(strategy, y, x)
  }

  ghost predicate BetterTools(x: Route, y: Route) {
    || (CallsTools(x, "strong") && !CallsTools(y, "strong"))
    || (CallsTools(x, "ok") && !CallsTools(y, "ok") && !CallsTools(y, "strong"))
  }

  /** Loaded before unknown, unknown before known to be absent. */
  ghost predicate BetterRuntime(cfg: Config, st: State, x: Route, y: Route) {
    || (cfg.warmBonus > 0 && Seen(cfg, st, x, true) && !Seen(cfg, st, y, true) && !Seen(cfg, st, y, false))
    || (cfg.unavailablePenalty > 0 && !Seen(cfg, st, x, true) && !Seen(cfg, st, x, false) && Seen(cfg, st, y, false))
    || (cfg.warmBonus + cfg.unavailablePenalty > 0 && Seen(cfg, st, x, true) && Seen(cfg, st, y, false))
  }

  ghost predicate SameRuntime(cfg: Config, st: State, x: Route, y: Route) {
    Seen(cfg, st, x, true) == Seen(cfg, st, y, true) && Seen(cfg, st, x, false) == Seen(cfg, st, y, false)
  }

  /** Two hundredths of the budget make a point. */
  ghost predicate MoreHeadroom(cfg: Config, x: Route, y: Route) {
    && Direct(x)
    && if Direct(y) then cfg.headroom(x.preferredId) >= cfg.headroom(y.preferredId) + 0.02 && cfg.headroom(y.preferredId) >= 0.0
       else cfg.headroom(x.preferredId) >= 0.02
  }

  ghost predicate SameHeadroom(cfg: Config, x: Route, y: Route) {
    Direct(x) == Direct(y) && (Direct(x) ==> cfg.headroom(x.preferredId) == cfg.headroom(y.preferredId))
  }

  datatype Aspect = Kind | Recommended | Avoided | Tools | Runtime | Headroom

  /** `x` is better than `y` in the aspect. */
  ghost predicate Better(cfg: Config, st: State, task: Option<string>, a: Aspect, x: Route, y: Route) {
    match a
    case Kind => CheaperKind(cfg.strategy, x.costTier, y.costTier)
    case Recommended => Tagged(task, x.recommendedFor) && !Tagged(task, y.recommendedFor)
    case Avoided => !Tagged(task, x.avoidFor) && Tagged(task, y.avoidFor)
    case Tools => BetterTools(x, y)
    case Runtime => BetterRuntime(cfg, st, x, y)
    case Headroom => MoreHeadroom(cfg, x, y)
  }

  ghost predicate Same(cfg: Config, st: State, task: Option<string>, a: Aspect, x: Route, y: Route) {
    match a
    case Kind => SameKind(cfg.strategy, x.costTier, y.costTier)
    case Recommended => Tagged(task, x.recommendedFor) == Tagged(task, y.recommendedFor)
    case Avoided => Tagged(task, x.avoidFor) == Tagged(task, y.avoidFor)
    case Tools => CallsTools(x, "strong") == CallsTools(y, "strong") && CallsTools(x, "ok") == CallsTools(y, "ok")
    case Runtime => SameRuntime(cfg, st, x, y)
    case Headroom => SameHeadroom(cfg, x, y)
  }

  /** One aspect's share of the lead. */
  ghost function LeadIn(cfg: Config, st: State, task: Option<string>, a: Aspect, x: Route, y: Route): int {
    match a
    case Kind => InTable(CostTiers(cfg.strategy), x.costTier) - InTable(CostTiers(cfg.strategy), y.costTier)
    case Recommended => 1000 * (One(Tagged(task, x.recommendedFor)) - One(Tagged(task, y.recommendedFor)))
    case Avoided => -2000 * (One(Tagged(task, x.avoidFor)) - One(Tagged(task, y.avoidFor)))
    case Tools =>
      250 * (One(CallsTools(x, "strong")) - One(CallsTools(y, "strong"))) + 100 * (One(CallsTools(x, "ok")) - One(CallsTools(y, "ok")))
    case Runtime =>
      cfg.warmBonus * (One(Seen(cfg, st, x, true)) - One(Seen(cfg, st, y, true)))
      - cfg.unavailablePenalty * (One(Seen(cfg, st, x, false)) - One(Seen(cfg, st, y, false)))
    case Headroom => HeadroomPoints(cfg, x) - HeadroomPoints(cfg, y)
  }

  lemma LeadIsSum(cfg: Config, st: State, task: Option<string>, x: Route, y: Route)
    ensures Lead(cfg, st, task, x, y)
         == LeadIn(cfg, st, task, Kind, x, y) + LeadIn(cfg, st, task, Recommended, x, y) + LeadIn(cfg, st, task, Avoided, x, y)
          + LeadIn(cfg, st, task, Tools, x, y) + LeadIn(cfg, st, task, Runtime, x, y) + LeadIn(cfg, st, task, Headroom, x, y)
  {
  }

  lemma HeadroomCounts(cfg: Config, x: Route, y: Route)
    requires MoreHeadroom(cfg, x, y)
    ensures HeadroomPoints(cfg, x) > HeadroomPoints(cfg, y)
  {
  }

  lemma BetterLeads(cfg: Config, st: State, task: Option<string>, a: Aspect, x: Route, y: Route)
    ensures Better(cfg, st, task, a, x, y) ==> LeadIn(cfg, st, task, a, x, y) > 0
    ensures Same(cfg, st, task, a, x, y) ==> LeadIn(cfg, st, task, a, x, y) == 0
  {
    match a
    case Headroom =>
      if MoreHeadroom(cfg, x, y) {
        HeadroomCounts(cfg, x, y);
      }
    case Runtime =>
    case Tools => 
    case _ =>
  }

  /** Whatever the strategy and the lane: of two returned routes with the same base
      priority, one that is better in some aspect and worse in none stands first. */
  lemma BetterFirst(cfg: Config, st: State, req: Request, best: Aspect, x: Route, y: Route)
    requires WellConfigured(cfg) && CacheSane(st.synthesized)
    requires x in OrderedRoutes(cfg, st, req) && y in OrderedRoutes(cfg, st, req) && Together(cfg.strategy, x, y)
    requires Base(Dealing(cfg, st, req))(x) >= Base(Dealing(cfg, st, req))(y)
    requires Better(cfg, st, req.task, best, x, y)
    requires forall a :: Better(cfg, st, req.task, a, x, y) || Same(cfg, st, req.task, a, x, y)
    ensures Precedes(OrderedRoutes(cfg, st, req), x, y)
  {
    LeadIsSum(cfg, st, req.task, x, y);
    forall a ensures LeadIn(cfg, st, req.task, a, x, y) >= 0 && LeadIn(cfg, st, req.task, best, x, y) > 0 {
      assert Better(cfg, st, req.task, a, x, y) || Same(cfg, st, req.task, a, x, y);
      BetterLeads(cfg, st, req.task, a, x, y);
      BetterLeads(cfg, st, req.task, best, x, y);
    }
    ClaimPrecedes(cfg, st, req, x, y);
  }

  /** Two routes that differ only in their names and their tags. */
  predicate DifferInTags(x: Route, y: Route) {
    y == x.(name := y.name, recommendedFor := y.recommendedFor, avoidFor := y.avoidFor)
  }

  /** Of two routes that differ only in their tags the recommended one stands first,
      and the one to avoid last; two cloud routes under a lane, when the lane did not
      put the other one first. */
  lemma TagsDecide(cfg: Config, st: State, req: Request, tag: Aspect, x: Route, y: Route)
    requires WellConfigured(cfg) && CacheSane(st.synthesized) && DifferInTags(x, y)
    requires x in OrderedRoutes(cfg, st, req) && y in OrderedRoutes(cfg, st, req)
    requires cfg.capabilityRouting && x.IsCloud() ==> Precedes(Reordered(cfg, st, req, GatedCloud(cfg, st, req)), x, y)
    requires tag == Recommended || tag == Avoided
    requires Better(cfg, st, req.task, tag, x, y)
    requires forall a :: a == Recommended || a == Avoided || a == Runtime ==>
               Better(cfg, st, req.task, a, x, y) || Same(cfg, st, req.task, a, x, y)
    ensures Precedes(OrderedRoutes(cfg, st, req), x, y)
  {
    forall a ensures Better(cfg, st, req.task, a, x, y) || Same(cfg, st, req.task, a, x, y) {
      assert a == Kind || a == Tools || a == Headroom ==> Same(cfg, st, req.task, a, x, y);
    }
    if cfg.capabilityRouting && x.IsCloud() {
      LaneDealsDown(cfg, st, req, x, y);
    } else {
      OwnPriority(cfg, st, req, x);
      OwnPriority(cfg, st, req, y);
    }
    BetterFirst(cfg, st, req, tag, x, y);
  }

  lemma TablesAreNarrow(cfg: Config, st: State, task: Option<string>, x: Route, y: Route)
    ensures LeadIn(cfg, st, task, Kind, x, y) >= -300 && LeadIn(cfg, st, task, Tools, x, y) >= -250
  {
  }

  /** What the task recommends outweighs the tables of cost and tools together: only
      450 points of base priority, runtime and headroom keep a recommended route back. */
  lemma RecommendedOutweighs(cfg: Config, st: State, req: Request, x: Route, y: Route)
    requires WellConfigured(cfg) && CacheSane(st.synthesized)
    requires x in OrderedRoutes(cfg, st, req) && y in OrderedRoutes(cfg, st, req) && Together(cfg.strategy, x, y)
    requires Better(cfg, st, req.task, Recommended, x, y)
    requires Better(cfg, st, req.task, Avoided, x, y) || Same(cfg, st, req.task, Avoided, x, y)
    requires Base(Dealing(cfg, st, req))(x) - Base(Dealing(cfg, st, req))(y)
             + LeadIn(cfg, st, req.task, Runtime, x, y) + LeadIn(cfg, st, req.task, Headroom, x, y) > -450
    ensures Precedes(OrderedRoutes(cfg, st, req), x, y)
  {
    LeadIsSum(cfg, st, req.task, x, y);
    TablesAreNarrow(cfg, st, req.task, x, y);
    RecommendedLead(cfg, st, req.task, x, y);
    ClaimPrecedes(cfg, st, req, x, y);
  }

  lemma RecommendedLead(cfg: Config, st: State, task: Option<string>, x: Route, y: Route)
    requires Better(cfg, st, task, Recommended, x, y)
    requires Better(cfg, st, task, Avoided, x, y) || Same(cfg, st, task, Avoided, x, y)
    ensures LeadIn(cfg, st, task, Recommended, x, y) == 1000 && LeadIn(cfg, st, task, Avoided, x, y) >= 0
  {
  }

  // ----- the lane's order, in its tier's numbers -----

  /** What the turn's lane ranks by: margin under `prefer_cloud_quality`, margin per
      dollar otherwise; then the cost. */
  predicate RankedOver(strategy: Strategy, x: MR.Candidate, y: MR.Candidate) {
    var lead := if strategy.PreferCloudQuality? then x.margin - y.margin else x.margin * y.cost - y.margin * x.cost;
    lead > 0.0 || (lead == 0.0 && x.cost < y.cost)
  }

  lemma RankOfPosition(candidates: seq<MR.Candidate>, k: nat)
    requires k < |candidates| && forall i, j :: 0 <= i < j < |candidates| ==> candidates[i].model.id != candidates[j].model.id
    ensures RankOf(candidates, candidates[k].model.id) == k
  {
    if k > 0 {
      RankOfPosition(candidates[1..], k - 1);
      assert candidates[1..][k - 1] == candidates[k];
    }
  }

  lemma RankedOverIsBetter(strategy: Strategy, x: MR.Candidate, y: MR.Candidate)
    requires RankedOver(strategy, x, y)
    ensures x != y && !RR.MayLead(if strategy.PreferCloudQuality? then MR.Best else MR.Auto, y, x)
  {
  }

  lemma RankFollowsTier(cfg: Config, st: State, req: Request, cx: MR.Candidate, cy: MR.Candidate)
    requires MR.DistinctIds(cfg.catalog)
    requires cx in Shortlist(cfg, st, req.task) && cy in Shortlist(cfg, st, req.task) && RankedOver(cfg.strategy, cx, cy)
    ensures RankOf(Shortlist(cfg, st, req.task), cx.model.id) < RankOf(Shortlist(cfg, st, req.task), cy.model.id)
  {
    var lane, q := Shortlist(cfg, st, req.task), LaneQuery(cfg, st, req.task);
    var i :| 0 <= i < |lane| && lane[i] == cx;
    var j :| 0 <= j < |lane| && lane[j] == cy;
    RR.ShortlistInTierOrder(q, cfg.catalog);
    assert j < i ==> RR.MayLead(q.tier, lane[j], lane[i]);
    RankedOverIsBetter(cfg.strategy, cx, cy);
    ShortlistIdsDiffer(q, cfg.catalog);
    RankOfPosition(lane, i);
    RankOfPosition(lane, j);
  }

  lemma ShortlistIdsDiffer(q: MR.Query, catalog: seq<MR.CatalogModel>)
    requires MR.DistinctIds(catalog)
    ensures var s := MR.Resolve(q, catalog).candidates;
            forall i, j :: 0 <= i < j < |s| ==> s[i].model.id != s[j].model.id
  {
    var s := MR.Resolve(q, catalog).candidates;
    MR.ResolutionIdsOnce(q, catalog);
    SingletonsAt(MR.CandidateId(), s);
    OnceIffDistinct(FlatMap(MR.CandidateId(), s));
    var ids := FlatMap(MR.CandidateId(), s);
    assert forall i, j :: 0 <= i < j < |ids| ==> ids[i] != ids[j];
    assert forall i :: 0 <= i < |s| ==> ids[i] == s[i].model.id;
  }

  predicate RanksHigher(cfg: Config, lane: seq<MR.Candidate>, x: Route, y: Route) {
    exists cx, cy :: cx in lane && cy in lane && cx.model.id == cfg.transports.CatalogId(x.model)
      && cy.model.id == cfg.transports.CatalogId(y.model) && RankedOver(cfg.strategy, cx, cy)
  }

  /** The aggregator before a direct provider, and a provider the gateway has an alias
      for before any other. */
  predicate NearerTransport(t: TransportMap, x: string, y: string) {
    !t.ViaAggregator(y) && (t.ViaAggregator(x) || (x in t.aliasToCatalog && y !in t.aliasToCatalog))
  }

  predicate InCatalog(cfg: Config, r: Route) {
    exists m :: m in cfg.catalog && m.id == cfg.transports.CatalogId(r.model)
  }

  /** Why one cloud route comes before another in the lane's order. Listed models come
      first: by rank, and one model by its transport; the others follow, those in the
      catalog before those that are not, and among each by transport. */
  ghost predicate LanePrefers(cfg: Config, st: State, req: Request, x: Route, y: Route) {
    var lane, t := Shortlist(cfg, st, req.task), cfg.transports;
    if Listed(lane, t.CatalogId(x.model)) then
      || RanksHigher(cfg, lane, x, y)
      || (t.CatalogId(x.model) == t.CatalogId(y.model) && NearerTransport(t, x.model, y.model))
      || !Listed(lane, t.CatalogId(y.model))
    else
      && !Listed(lane, t.CatalogId(y.model)) && (InCatalog(cfg, y) ==> InCatalog(cfg, x))
      && ((InCatalog(cfg, x) && !InCatalog(cfg, y)) || NearerTransport(t, x.model, y.model))
  }

  lemma LanePrefersRank(cfg: Config, st: State, req: Request, x: Route, y: Route)
    requires MR.DistinctIds(cfg.catalog) && LanePrefers(cfg, st, req, x, y) && InLane(cfg, Shortlist(cfg, st, req.task))(x)
    ensures var lane := Shortlist(cfg, st, req.task);
            InLane(cfg, lane)(y) ==> ByPair(LaneRank(cfg, lane), TransportKind(cfg))(x, y)
  {
    var lane, t := Shortlist(cfg, st, req.task), cfg.transports;
    if RanksHigher(cfg, lane, x, y) {
      var cx, cy :| cx in lane && cy in lane && cx.model.id == t.CatalogId(x.model)
        && cy.model.id == t.CatalogId(y.model) && RankedOver(cfg.strategy, cx, cy);
      RankFollowsTier(cfg, st, req, cx, cy);
    }
  }

  lemma UnlistedRank(cfg: Config, st: State, req: Request, x: Route, y: Route)
    requires LanePrefers(cfg, st, req, x, y) && !Listed(Shortlist(cfg, st, req.task), cfg.transports.CatalogId(x.model))
    ensures NotInLane(cfg, Shortlist(cfg, st, req.task))(x) && NotInLane(cfg, Shortlist(cfg, st, req.task))(y)
    ensures ByPair(KnownLast(cfg), TransportKind(cfg))(x, y)
  {
  }

  lemma UnlistedPrecedes(cfg: Config, lane: seq<MR.Candidate>, pool: seq<Route>, x: Route, y: Route)
    requires x in pool && y in pool && NotInLane(cfg, lane)(x) && NotInLane(cfg, lane)(y)
    requires ByPair(KnownLast(cfg), TransportKind(cfg))(x, y)
    ensures Precedes(LaneOrder(cfg, lane, pool), x, y)
  {
    var lt, front := ByPair(KnownLast(cfg), TransportKind(cfg)), Sorted(ByPair(LaneRank(cfg, lane), TransportKind(cfg)), Filter(InLane(cfg, lane), pool));
    var rest := Filter(NotInLane(cfg, lane), pool);
    KeyOrders(KnownLast(cfg), TransportKind(cfg));
    SortOrders(lt, rest);
    SortPermutes(lt, rest);
    OrderedPrecedes(lt, Sorted(lt, rest), x, y);
    PrecedesInConcat(front, Sorted(lt, rest), x, y);
  }

  lemma LanePrefersFirst(cfg: Config, st: State, req: Request, x: Route, y: Route)
    requires WellConfigured(cfg) && cfg.capabilityRouting && LanePrefers(cfg, st, req, x, y)
    requires x in OrderedRoutes(cfg, st, req) && y in OrderedRoutes(cfg, st, req) && x.IsCloud() && y.IsCloud()
    ensures Precedes(Reordered(cfg, st, req, GatedCloud(cfg, st, req)), x, y)
  {
    var lane, pool := Shortlist(cfg, st, req.task), CloudPool(cfg, st, req, GatedCloud(cfg, st, req));
    CloudRoutesArePool(cfg, st, req, x);
    CloudRoutesArePool(cfg, st, req, y);
    if InLane(cfg, lane)(x) {
      LanePrefersRank(cfg, st, req, x, y);
      LaneOrderPrecedes(cfg, lane, pool, x, y);
    } else {
      UnlistedRank(cfg, st, req, x, y);
      UnlistedPrecedes(cfg, lane, pool, x, y);
    }
  }

  /** Among cloud routes that are level in every aspect, or better, the lane decides:
      by the numbers of its tier, then by transport, and models it did not list last. */
  lemma LaneDecides(cfg: Config, st: State, req: Request, x: Route, y: Route)
    requires WellConfigured(cfg) && CacheSane(st.synthesized) && cfg.capabilityRouting && LanePrefers(cfg, st, req, x, y)
    requires x in OrderedRoutes(cfg, st, req) && y in OrderedRoutes(cfg, st, req) && x.IsCloud() && y.IsCloud()
    requires Lead(cfg, st, req.task, x, y) >= 0
    ensures Precedes(OrderedRoutes(cfg, st, req), x, y)
  {
    LanePrefersFirst(cfg, st, req, x, y);
    LaneDealsDown(cfg, st, req, x, y);
    ClaimPrecedes(cfg, st, req, x, y);
  }

  // ----- who is offered at all -----

  /** The operator's switch, or the profile's default. */
  predicate SwitchedOn(st: State, r: Route) {
    if r.name in st.overrides then st.overrides[r.name] else r.enabledByDefault
  }

  /** What a configured route needs to be offered to a request. */
  ghost predicate MayServe(cfg: Config, st: State, req: Request, r: Route) {
    && !r.IsFreeTier() && r.status != "disabled" && r.configured && r.hasProvider && SwitchedOn(st, r)
    && (req.requireTools ==> CallsTools(r, "ok") || CallsTools(r, "strong"))
    && r.name !in st.openBreakers && (r.isPrimary ==> !st.primaryBreakerOpen)
    && (if r.costTier == "local" then
          !cfg.strategy.CloudOnly? && !req.forceSecondary && !Seen(cfg, st, r, false)
        else
          && !cfg.strategy.LocalOnly? && req.cloudAllowed && req.contextEligible
          && (req.policy.Some? ==> req.policy.value in r.policies))
  }

  lemma {:induction false} FirstNamedIs(routes: seq<Route>, r: Route)
    requires DistinctNames(routes) && r in routes
    ensures FirstNamed(routes, r.name) == Some(r)
  {
    if routes[0] != r {
      var i :| 0 <= i < |routes| && routes[i] == r;
      assert routes[1..][i - 1] == r;
      FirstNamedIs(routes[1..], r);
    }
  }

  lemma ToolsCalled(r: Route)
    ensures r.ReliableToolCalling() <==> CallsTools(r, "ok") || CallsTools(r, "strong")
  {
    if exists c :: c in r.capabilities && Lower(Strip(c)) == "tools" {
      var c :| c in r.capabilities && Lower(Strip(c)) == "tools";
      var i :| 0 <= i < |r.capabilities| && r.capabilities[i] == c;
    }
  }

  lemma GateIsMayServe(cfg: Config, st: State, req: Request, r: Route)
    requires DistinctNames(cfg.routes) && r in cfg.routes
    ensures Gate(cfg, st, req)(r) <==> MayServe(cfg, st, req, r)
  {
    FirstNamedIs(cfg.routes, r);
    ToolsCalled(r);
    assert RouteEnabled(cfg, st, r.name) <==> r.status != "disabled" && SwitchedOn(st, r);
  }

  /** A configured route is returned exactly when it may serve the request. */
  lemma OfferedIffMayServe(cfg: Config, st: State, req: Request, r: Route)
    requires DistinctNames(cfg.routes) && r in cfg.routes
    ensures r in OrderedRoutes(cfg, st, req) <==> MayServe(cfg, st, req, r)
  {
    GateIsMayServe(cfg, st, req, r);
    NothingLostNothingInvented(cfg, st, req);
    EveryRoutePassesTheGate(cfg, st, req);
    var routes := Filter(Gate(cfg, st, req), cfg.routes);
    assert multiset(OrderedRoutes(cfg, st, req)) == multiset(routes + SynthesizedPassing(cfg, st, req));
    SameElements(OrderedRoutes(cfg, st, req), routes + SynthesizedPassing(cfg, st, req));
  }

  /** The route made for a lane winner: its tier by the price of a completion, the
      policies of that tier, and the task as its own only where the cloud family
      claims it already. */
  ghost predicate MadeFor(cfg: Config, st: State, req: Request, m: MR.CatalogModel, r: Route) {
    && r.model == m.id && r.name == "catalog:" + m.id && r.catalogDerived
    && r.costTier == (if m.completionPrice > 0.000005 then "premium" else "low_cost")
    && (forall p :: p in r.policies <==> p == "local_then_claude_if_high_value" || (p == "local_then_low_cost" && r.costTier == "low_cost"))
    && (Tagged(req.task, r.recommendedFor) <==>
          exists own :: own in GatedCloud(cfg, st, req) && Tagged(req.task, own.recommendedFor))
  }

  lemma RestatedIsMadeFor(cfg: Config, st: State, req: Request, base: Route, m: MR.CatalogModel)
    requires base.model == m.id && base.name == "catalog:" + m.id && base.catalogDerived
    ensures MadeFor(cfg, st, req, m, Restated(base, req.task, CloudClaimsTask(GatedCloud(cfg, st, req), req.task), m))
  {
    var cloud := GatedCloud(cfg, st, req);
    forall own ensures TaskMatches(req.task, own) <==> Tagged(req.task, own) {
      TaggedIsMatch(req.task, own);
    }
    var r := Restated(base, req.task, CloudClaimsTask(cloud, req.task), m);
    if r.recommendedFor != [] {
      assert r.recommendedFor[0] == req.task.value;
    }
  }

  lemma RefreshedIn(cache: map<string, Route>, task: Option<string>, claimed: bool, winners: seq<MR.Candidate>, c: MR.Candidate)
    requires c in winners
    ensures Refresh(cache, task, claimed, c.model) in FlatMap(RefreshOne(cache, task, claimed), winners)
  {
    SingletonsAt(RefreshOne(cache, task, claimed), winners);
    var i :| 0 <= i < |winners| && winners[i] == c;
    assert FlatMap(RefreshOne(cache, task, claimed), winners)[i] == Refresh(cache, task, claimed, c.model);
  }

  /** With a key, every model of the shortlist that no configured cloud route covers
      gets a route of its own, and it is returned when it passes the gate. */
  lemma WinnersGetRoutes(cfg: Config, st: State, req: Request, c: MR.Candidate)
    requires cfg.capabilityRouting && cfg.apiKey && CacheSane(st.synthesized) && cfg.laneFor(req.task).minContextTokens >= 0
    requires c in Shortlist(cfg, st, req.task)
    requires forall r :: r in cfg.routes && r.IsCloud() ==> cfg.transports.CatalogId(r.model) != c.model.id
    ensures exists r :: MadeFor(cfg, st, req, c.model, r) && (BlockedReason(cfg, st, req, r).None? ==> r in OrderedRoutes(cfg, st, req))
  {
    var lane, task, claimed := Shortlist(cfg, st, req.task), req.task, CloudClaimsTask(GatedCloud(cfg, st, req), req.task);
    RR.ShortlistMembers(LaneQuery(cfg, st, task), cfg.catalog, c);
    var winners := Filter(UncoveredIn(cfg), lane);
    assert c in winners;
    var after := CacheAfter(UncoveredIn(cfg), true, st.synthesized, lane);
    RememberKeeps(st.synthesized, winners);
    RememberSane(st.synthesized, winners);
    var r := Refresh(after, task, claimed, c.model);
    RefreshedIn(after, task, claimed, winners, c);
    RestatedIsMadeFor(cfg, st, req, after[c.model.id], c.model);
    SynthesizedIsReturned(cfg, st, req, r);
  }

  lemma SynthesizedIsReturned(cfg: Config, st: State, req: Request, r: Route)
    requires cfg.capabilityRouting && r in SynthesizedRoutes(cfg, st, req.task, GatedCloud(cfg, st, req))
    ensures BlockedReason(cfg, st, req, r).None? ==> r in OrderedRoutes(cfg, st, req)
  {
    NothingLostNothingInvented(cfg, st, req);
    var routes, passing := Filter(Gate(cfg, st, req), cfg.routes), SynthesizedPassing(cfg, st, req);
    assert multiset(OrderedRoutes(cfg, st, req)) == multiset(routes + passing);
    SameElements(OrderedRoutes(cfg, st, req), routes + passing);
    assert Gate(cfg, st, req)(r) ==> r in passing;
  }

  /** Without a key nothing is reachable that was not made before: one model of the
      shortlist that has no route yet and the turn gets none at all. */
  lemma KeylessGetNone(cfg: Config, st: State, req: Request, c: MR.Candidate)
    requires cfg.capabilityRouting && !cfg.apiKey && cfg.laneFor(req.task).minContextTokens >= 0
    requires c in Shortlist(cfg, st, req.task) && c.model.id !in st.synthesized
    requires forall r :: r in cfg.routes && r.IsCloud() ==> cfg.transports.CatalogId(r.model) != c.model.id
    ensures SynthesizedPassing(cfg, st, req) == []
  {
    RR.ShortlistMembers(LaneQuery(cfg, st, req.task), cfg.catalog, c);
    assert c in Filter(UncoveredIn(cfg), Shortlist(cfg, st, req.task));
  }

  /** A breaker has seen the route fail. */
  predicate Suspended(cfg: Config, st: State, r: Route) {
    r.name in st.openBreakers || (r.name in st.errors && st.errors[r.name] >= cfg.errorThreshold)
  }

  /** The models the lane leaves out are exactly those of a suspended route, configured
      or made from the catalog. */
  lemma BenchedIff(cfg: Config, st: State, req: Request, id: string)
    requires cfg.errorThreshold > 0
    ensures id in LaneQuery(cfg, st, req.task).benched <==>
              || (exists r :: r in cfg.routes && r.costTier != "local" && cfg.transports.CatalogId(r.model) == id && Suspended(cfg, st, r))
              || (exists k :: k in st.synthesized && st.synthesized[k].model == id && Suspended(cfg, st, st.synthesized[k]))
  {
  }

  /** A route made from the catalog is for a model of the turn's lane that no configured
      cloud route stands for and that no suspended route, its own included, has shown
      to fail. */
  lemma DerivedAreNew(cfg: Config, st: State, req: Request, r: Route)
    requires CacheSane(st.synthesized) && (forall own :: own in cfg.routes ==> !own.catalogDerived)
    requires cfg.laneFor(req.task).minContextTokens >= 0 && cfg.errorThreshold > 0
    requires r in OrderedRoutes(cfg, st, req) && r.catalogDerived
    ensures cfg.capabilityRouting
    ensures forall own :: own in cfg.routes && own.costTier != "local" ==> cfg.transports.CatalogId(own.model) != r.model
    ensures forall k :: k in st.synthesized && st.synthesized[k].model == r.model ==> !Suspended(cfg, st, st.synthesized[k])
    ensures exists m :: m in cfg.catalog && m.id == r.model && MR.Qualifies(LaneQuery(cfg, st, req.task), m)
  {
    CatalogDerivedAreUnbenchedWinners(cfg, st, req);
    BenchedIff(cfg, st, req, r.model);
    NothingLostNothingInvented(cfg, st, req);
    assert r in multiset(OrderedRoutes(cfg, st, req));
    forall own | own in cfg.routes && own.costTier != "local" ensures cfg.transports.CatalogId(own.model) != r.model {
      assert cfg.transports.CatalogId(own.model) in ConfiguredIds(cfg);
    }
  }
}
