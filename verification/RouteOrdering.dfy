/** Which provider routes a turn may use, and in what order: one gate for every
    route, catalog-derived routes synthesized for lane winners nothing configured
    covers, the lane's ranking redealt onto the cloud family's own priorities, and
    a stable sort by score. */
module RouteOrdering {
  import opened Text
  import opened StableSort
  import MR = ModelResolver

  datatype Strategy = BestValue | PreferLocal | PreferCloudQuality | LocalOnly | CloudOnly

  /** `hasProvider` and `isPrimary` stand for the provider object of the source. */
  datatype Route = Route(
    name: string, model: string, costTier: string, policies: set<string>,
    recommendedFor: seq<string>, avoidFor: seq<string>, priority: int,
    configured: bool, hasProvider: bool, isPrimary: bool, status: string, enabledByDefault: bool,
    capabilities: seq<string>, toolQuality: string, budgetId: string, preferredId: string, catalogDerived: bool)
  {
    predicate IsCloud() {
      costTier != "local"
    }

    predicate IsFreeTier() {
      var segments := Split(Lower(Strip(model)), ':')[1..];
      "free" in segments || "free-tier" in segments
    }

    predicate ReliableToolCalling() {
      (exists c :: c in capabilities && Lower(Strip(c)) == "tools") && (toolQuality == "ok" || toolQuality == "strong")
    }
  }

  datatype Health = Health(checked: bool, endpointHealthy: bool, modelAvailable: bool)

  /** Gateway aliases: a prefix for the aggregator, a table for direct providers. */
  datatype TransportMap = TransportMap(prefix: string, aliasToCatalog: map<string, string>) {
    predicate ViaAggregator(alias: string) {
      prefix != "" && prefix <= alias
    }

    function CatalogId(alias: string): string {
      if ViaAggregator(alias) then alias[|prefix|..]
      else if alias in aliasToCatalog then aliasToCatalog[alias] else alias
    }

    function Kind(alias: string): int {
      if ViaAggregator(alias) then 0 else if alias in aliasToCatalog then 1 else 2
    }
  }

  datatype Config = Config(
    routes: seq<Route>, strategy: Strategy, capabilityRouting: bool, errorThreshold: int,
    transports: TransportMap, laneFor: Option<string> -> MR.Lane, catalog: seq<MR.CatalogModel>, apiKey: bool,
    managed: bool, warmBonus: int, unavailablePenalty: int, headroom: string -> real, now: int)

  /** The router's mutable part, as one decision sees it. `health` holds the
      cached probes that are still fresh, by route name. */
  datatype State = State(
    synthesized: map<string, Route>, overrides: map<string, bool>, openBreakers: set<string>,
    errors: map<string, int>, primaryBreakerOpen: bool, health: map<string, Health>)

  datatype Request = Request(
    forceSecondary: bool, cloudAllowed: bool, policy: Option<string>, task: Option<string>,
    contextEligible: bool, requireTools: bool)

  // ----- the gate -----

  datatype Block =
    | FreeTierExcluded | StrategyLocalOnly | ToolCallingNotSupported | StrategyCloudOnly | ForceSecondary
    | ContextCloudIneligible | CircuitBreakerOpen | PolicyBlocked | RuntimeBlocked

  function FirstNamed(routes: seq<Route>, name: string): Option<Route> {
    if routes == [] then None
    else if routes[0].name == name then Some(routes[0]) else FirstNamed(routes[1..], name)
  }

  /** Configured routes shadow synthesized ones of the same name. */
  predicate RouteEnabled(cfg: Config, st: State, name: string) {
    var found := FirstNamed(cfg.routes, name);
    if found.Some? then
      found.value.status != "disabled" && (if name in st.overrides then st.overrides[name] else found.value.enabledByDefault)
    else
      name in st.overrides ==> st.overrides[name]
  }

  predicate RouteAllowed(cfg: Config, st: State, route: Route, cloudAllowed: bool, policy: Option<string>) {
    && !route.IsFreeTier()
    && route.status != "disabled"
    && route.configured && route.hasProvider
    && RouteEnabled(cfg, st, route.name)
    && (route.IsCloud() ==> cloudAllowed && (policy.Some? ==> policy.value in route.policies))
  }

  predicate TemporarilyBlocked(st: State, route: Route) {
    route.name in st.openBreakers || (st.primaryBreakerOpen && route.isPrimary)
  }

  predicate NotWarm(cfg: Config, st: State, route: Route) {
    && cfg.managed && !route.IsCloud() && RouteEnabled(cfg, st, route.name)
    && route.name in st.health && st.health[route.name].checked && !st.health[route.name].modelAvailable
  }

  function BlockedReason(cfg: Config, st: State, req: Request, route: Route): Option<Block> {
    if route.IsFreeTier() then Some(FreeTierExcluded)
    else if cfg.strategy.LocalOnly? && route.IsCloud() then Some(StrategyLocalOnly)
    else if req.requireTools && !route.ReliableToolCalling() then Some(ToolCallingNotSupported)
    else if cfg.strategy.CloudOnly? && !route.IsCloud() then Some(StrategyCloudOnly)
    else if req.forceSecondary && !route.IsCloud() then Some(ForceSecondary)
    else if route.IsCloud() && !req.contextEligible then Some(ContextCloudIneligible)
    else if TemporarilyBlocked(st, route) then Some(CircuitBreakerOpen)
    else if !RouteAllowed(cfg, st, route, req.cloudAllowed, req.policy) then Some(PolicyBlocked)
    else if NotWarm(cfg, st, route) then Some(RuntimeBlocked)
    else None
  }

  function Gate(cfg: Config, st: State, req: Request): Route -> bool {
    (route: Route) => BlockedReason(cfg, st, req, route).None?
  }

  // ----- scoring -----

  function CostAdjustment(strategy: Strategy, tier: string): int {
    match strategy
    case BestValue => if tier == "local" then 120 else if tier == "low_cost" then 40 else 0
    case PreferLocal => if tier == "local" then 300 else if tier == "low_cost" then 75 else 0
    case PreferCloudQuality => if tier == "low_cost" then 250 else if tier == "premium" then 300 else 0
    case LocalOnly => 0
    case CloudOnly => 0
  }

  predicate TaskMatches(task: Option<string>, tags: seq<string>) {
    && task.Some? && task.value != ""
    && exists t :: t in tags && Lower(Strip(t)) == Lower(Strip(task.value))
  }

  function Trunc(x: real): int {
    if x >= 0.0 then x.Floor else -((-x).Floor)
  }

  function ToolBonus(route: Route): int {
    if !route.ReliableToolCalling() then 0 else if route.toolQuality == "ok" then 100 else 250
  }

  function RuntimeAdjustment(cfg: Config, st: State, route: Route): int {
    if !cfg.managed || route.IsCloud() || route.name !in st.health || !st.health[route.name].checked then 0
    else if st.health[route.name].modelAvailable then cfg.warmBonus else -cfg.unavailablePenalty
  }

  function HeadroomBonus(cfg: Config, route: Route): int {
    if route.preferredId != "" && route.preferredId == route.budgetId
    then Trunc(50.0 * cfg.headroom(route.preferredId)) else 0
  }

  /** Everything in a score that is not the priority. */
  function Merit(cfg: Config, st: State, task: Option<string>): Route -> int {
    (route: Route) =>
      CostAdjustment(cfg.strategy, route.costTier)
      + (if TaskMatches(task, route.recommendedFor) then 1000 else 0)
      - (if TaskMatches(task, route.avoidFor) then 2000 else 0)
      + ToolBonus(route) + RuntimeAdjustment(cfg, st, route) + HeadroomBonus(cfg, route)
  }

  function Base(deal: map<string, int>): Route -> int {
    (route: Route) => if route.name in deal then deal[route.name] else route.priority
  }

  function Score(cfg: Config, st: State, task: Option<string>, deal: map<string, int>): Route -> int {
    (route: Route) => Base(deal)(route) + Merit(cfg, st, task)(route)
  }

  // ----- catalog-derived routes -----

  predicate Failing(cfg: Config, st: State, route: Route) {
    route.name in st.openBreakers || (if route.name in st.errors then st.errors[route.name] else 0) >= cfg.errorThreshold
  }

  /** Models the breaker has seen fail, under any of their routes. */
  function BenchedModels(cfg: Config, st: State): set<string> {
    (set r | r in cfg.routes && r.IsCloud() && Failing(cfg, st, r) :: cfg.transports.CatalogId(r.model))
    + (set k | k in st.synthesized && Failing(cfg, st, st.synthesized[k]) :: st.synthesized[k].model)
  }

  function LaneQuery(cfg: Config, st: State, task: Option<string>): MR.Query {
    MR.Query(cfg.laneFor(task), if cfg.strategy.PreferCloudQuality? then MR.Best else MR.Auto, BenchedModels(cfg, st), map[], cfg.now)
  }

  function ConfiguredIds(cfg: Config): set<string> {
    set r | r in cfg.routes && r.IsCloud() :: cfg.transports.CatalogId(r.model)
  }

  /** A lane winner that no configured cloud route already covers. */
  predicate Uncovered(cfg: Config, c: MR.Candidate) {
    && c.model.id !in ConfiguredIds(cfg)
    && !c.model.IsFreeTier() && !c.model.IsBatchTier() && !c.model.IsRouterPseudoModel()
    && c.cost > 0.0
  }

  function CatalogTier(m: MR.CatalogModel): string {
    if m.completionPrice * 1000000.0 > 5.0 then "premium" else "low_cost"
  }

  function SynthesizedPolicies(tier: string): set<string> {
    if tier == "low_cost" then {"local_then_low_cost", "local_then_claude_if_high_value"}
    else {"local_then_claude_if_high_value"}
  }

  function FreshBase(m: MR.CatalogModel): Route {
    var tools := "tools" in m.supported;
    var strong := (if m.agentic.Some? then m.agentic.value else 0.0) >= 44.4;
    Route("catalog:" + m.id, m.id, CatalogTier(m), SynthesizedPolicies(CatalogTier(m)), [], [], 0,
          true, true, false, "active", true, ["chat", "rag_answering"] + (if tools then ["tools"] else []),
          if strong then "strong" else if tools then "ok" else "none", "openrouter", "", true)
  }

  /** The catalog-derived routes kept by the router, once `winners` are built. */
  function Remember(cache: map<string, Route>, winners: seq<MR.Candidate>): map<string, Route> {
    if winners == [] then cache
    else
      var n := |winners| - 1;
      var earlier := Remember(cache, winners[..n]);
      var m := winners[n].model;
      if m.id in earlier then earlier else earlier[m.id := FreshBase(m)]
  }

  /** The cached route of a model, refreshed for this turn. */
  function Refresh(cache: map<string, Route>, task: Option<string>, claimed: bool, m: MR.CatalogModel): Route {
    Restated(if m.id in cache then cache[m.id] else FreshBase(m), task, claimed, m)
  }

  function Restated(base: Route, task: Option<string>, claimed: bool, m: MR.CatalogModel): Route {
    base.(costTier := CatalogTier(m), policies := SynthesizedPolicies(CatalogTier(m)),
          recommendedFor := if claimed && task.Some? && task.value != "" then [task.value] else [])
  }

  predicate CloudClaimsTask(cloud: seq<Route>, task: Option<string>) {
    exists r :: r in cloud && TaskMatches(task, r.recommendedFor)
  }

  function RefreshOne(cache: map<string, Route>, task: Option<string>, claimed: bool): MR.Candidate -> seq<Route> {
    (c: MR.Candidate) => [Refresh(cache, task, claimed, c.model)]
  }

  function UncoveredIn(cfg: Config): MR.Candidate -> bool {
    (c: MR.Candidate) => Uncovered(cfg, c)
  }

  function Shortlist(cfg: Config, st: State, task: Option<string>): seq<MR.Candidate> {
    MR.Resolve(LaneQuery(cfg, st, task), cfg.catalog).candidates
  }

  predicate AllCached(cache: map<string, Route>, winners: seq<MR.Candidate>) {
    forall c :: c in winners ==> c.model.id in cache
  }

  function CacheAfter(wanted: MR.Candidate -> bool, key: bool, cache: map<string, Route>, candidates: seq<MR.Candidate>): map<string, Route> {
    if key then Remember(cache, Filter(wanted, candidates)) else cache
  }

  /** Without a key one winner that was never built leaves nothing synthesized. */
  function SynthesizedFrom(
    wanted: MR.Candidate -> bool, key: bool, cache: map<string, Route>,
    task: Option<string>, claimed: bool, candidates: seq<MR.Candidate>): seq<Route>
  {
    var winners := Filter(wanted, candidates);
    var after := CacheAfter(wanted, key, cache, candidates);
    if AllCached(after, winners) then FlatMap(RefreshOne(after, task, claimed), winners) else []
  }

  function SynthesizedRoutes(cfg: Config, st: State, task: Option<string>, cloud: seq<Route>): seq<Route> {
    SynthesizedFrom(UncoveredIn(cfg), cfg.apiKey, st.synthesized, task, CloudClaimsTask(cloud, task), Shortlist(cfg, st, task))
  }

  // ----- the lane's order of the cloud family -----

  function RankOf(candidates: seq<MR.Candidate>, id: string): int {
    if candidates == [] then 0
    else if candidates[0].model.id == id then 0 else 1 + RankOf(candidates[1..], id)
  }

  predicate Listed(candidates: seq<MR.Candidate>, id: string) {
    exists c :: c in candidates && c.model.id == id
  }

  function LaneRank(cfg: Config, candidates: seq<MR.Candidate>): Route -> int {
    (r: Route) => RankOf(candidates, cfg.transports.CatalogId(r.model))
  }

  function TransportKind(cfg: Config): Route -> int {
    (r: Route) => cfg.transports.Kind(r.model)
  }

  function KnownLast(cfg: Config): Route -> int {
    (r: Route) => if exists m :: m in cfg.catalog && m.id == cfg.transports.CatalogId(r.model) then 0 else 1
  }

  function InLane(cfg: Config, candidates: seq<MR.Candidate>): Route -> bool {
    (r: Route) => Listed(candidates, cfg.transports.CatalogId(r.model))
  }

  function NotInLane(cfg: Config, candidates: seq<MR.Candidate>): Route -> bool {
    (r: Route) => !Listed(candidates, cfg.transports.CatalogId(r.model))
  }

  /** Lane members by rank then transport; everything else after them. */
  function LaneOrder(cfg: Config, candidates: seq<MR.Candidate>, pool: seq<Route>): seq<Route> {
    Sorted(ByPair(LaneRank(cfg, candidates), TransportKind(cfg)), Filter(InLane(cfg, candidates), pool))
    + Sorted(ByPair(KnownLast(cfg), TransportKind(cfg)), Filter(NotInLane(cfg, candidates), pool))
  }

  function CloudPool(cfg: Config, st: State, req: Request, cloud: seq<Route>): seq<Route> {
    cloud + Filter(Gate(cfg, st, req), SynthesizedRoutes(cfg, st, req.task, cloud))
  }

  function CloudOrder(cfg: Config, st: State, req: Request, cloud: seq<Route>): seq<Route> {
    LaneOrder(cfg, Shortlist(cfg, st, req.task), CloudPool(cfg, st, req, cloud))
  }

  // ----- redealing the anchors -----

  function Priority(): Route -> seq<int> {
    (r: Route) => [r.priority]
  }

  function Identity(): int -> int {
    x => x
  }

  function Derived(): Route -> bool {
    (r: Route) => r.catalogDerived
  }

  function Anchors(cloud: seq<Route>, reordered: seq<Route>): seq<int> {
    Sorted(Descending(Identity()),
           FlatMap(Priority(), cloud) + FlatMap(Priority(), Filter(Derived(), reordered)))
  }

  function Deal(anchors: seq<int>, reordered: seq<Route>): map<string, int> {
    if reordered == [] then map[]
    else
      var n := |reordered| - 1;
      Deal(anchors, reordered[..n])[reordered[n].name := if n < |anchors| then anchors[n] else 0]
  }

  // ----- the decision -----

  function Local(): Route -> bool {
    (r: Route) => !r.IsCloud()
  }

  function Cloud(): Route -> bool {
    (r: Route) => r.IsCloud()
  }

  function SortByScore(score: Route -> int, s: seq<Route>): seq<Route> {
    Sorted(Descending(score), s)
  }

  function Arrange(strategy: Strategy, score: Route -> int, routes: seq<Route>, local: seq<Route>, cloud: seq<Route>): seq<Route> {
    match strategy
    case PreferLocal => SortByScore(score, local) + SortByScore(score, cloud)
    case PreferCloudQuality => SortByScore(score, cloud) + SortByScore(score, local)
    case _ => SortByScore(score, routes)
  }

  /** The lane's order replaces the cloud family's own priorities, when there is one. */
  function Settle(cfg: Config, st: State, task: Option<string>, routes: seq<Route>, local: seq<Route>, cloud: seq<Route>,
                  reordered: seq<Route>): seq<Route>
  {
    if reordered == [] then Arrange(cfg.strategy, Score(cfg, st, task, map[]), routes, local, cloud)
    else
      var deal := Deal(Anchors(cloud, reordered), reordered);
      Arrange(cfg.strategy, Score(cfg, st, task, deal), local + reordered, local, reordered)
  }

  function Reordered(cfg: Config, st: State, req: Request, cloud: seq<Route>): seq<Route> {
    if cfg.capabilityRouting then CloudOrder(cfg, st, req, cloud) else []
  }

  function OrderedRoutes(cfg: Config, st: State, req: Request): seq<Route> {
    var routes := Filter(Gate(cfg, st, req), cfg.routes);
    var local, cloud := Filter(Local(), routes), Filter(Cloud(), routes);
    Settle(cfg, st, req.task, routes, local, cloud, Reordered(cfg, st, req, cloud))
  }

  function StateAfter(cfg: Config, st: State, req: Request): State {
    if cfg.capabilityRouting then st.(synthesized := CacheAfter(UncoveredIn(cfg), cfg.apiKey, st.synthesized, Shortlist(cfg, st, req.task))) else st
  }

  // ----- the router -----

  lemma {:induction false} RememberKeeps(cache: map<string, Route>, winners: seq<MR.Candidate>)
    ensures forall k :: k in cache ==> k in Remember(cache, winners) && Remember(cache, winners)[k] == cache[k]
    ensures AllCached(Remember(cache, winners), winners)
  {
    if winners != [] {
      var n := |winners| - 1;
      RememberKeeps(cache, winners[..n]);
      assert winners == winners[..n] + [winners[n]];
    }
  }

  lemma {:induction false} RememberConcat(cache: map<string, Route>, a: seq<MR.Candidate>, b: seq<MR.Candidate>)
    ensures Remember(cache, a + b) == Remember(Remember(cache, a), b)
  {
    if b == [] {
      assert a + b == a;
    } else {
      var n := |b| - 1;
      assert (a + b)[..|a + b| - 1] == a + b[..n];
      RememberConcat(cache, a, b[..n]);
    }
  }

  lemma AllowedIgnoresCache(cfg: Config, st: State, st': State, route: Route, cloudAllowed: bool, policy: Option<string>)
    requires st' == st.(synthesized := st'.synthesized)
    ensures RouteAllowed(cfg, st, route, cloudAllowed, policy) == RouteAllowed(cfg, st', route, cloudAllowed, policy)
    ensures NotWarm(cfg, st, route) == NotWarm(cfg, st', route)
  {
    assert RouteEnabled(cfg, st, route.name) == RouteEnabled(cfg, st', route.name);
  }

  lemma VerdictIgnoresCache(cfg: Config, st: State, st': State, req: Request, route: Route)
    requires st' == st.(synthesized := st'.synthesized)
    ensures Gate(cfg, st, req)(route) == Gate(cfg, st', req)(route)
  {
    AllowedIgnoresCache(cfg, st, st', route, req.cloudAllowed, req.policy);
  }

  lemma GateIgnoresCache(cfg: Config, st: State, st': State, req: Request, routes: seq<Route>)
    requires st' == st.(synthesized := st'.synthesized)
    ensures Filter(Gate(cfg, st, req), routes) == Filter(Gate(cfg, st', req), routes)
  {
    var p, q := Gate(cfg, st, req), Gate(cfg, st', req);
    forall r | r in routes ensures p(r) == q(r) {
      VerdictIgnoresCache(cfg, st, st', req, r);
    }
    FilterCongruent(p, q, routes);
  }

  /** The first `i` candidates have been served, as the whole list will be. */
  ghost predicate Built(wanted: MR.Candidate -> bool, key: bool, cache: map<string, Route>, task: Option<string>, claimed: bool,
                        candidates: seq<MR.Candidate>, i: nat, routes: seq<Route>)
  {
    && i <= |candidates|
    && AllCached(CacheAfter(wanted, key, cache, candidates[..i]), Filter(wanted, candidates[..i]))
    && routes == FlatMap(RefreshOne(CacheAfter(wanted, key, cache, candidates), task, claimed), Filter(wanted, candidates[..i]))
  }

  /** The cache after one more candidate. */
  function NextCache(wanted: MR.Candidate -> bool, key: bool, now: map<string, Route>, c: MR.Candidate): map<string, Route> {
    if wanted(c) && c.model.id !in now && key then now[c.model.id := FreshBase(c.model)] else now
  }

  lemma CacheNext(wanted: MR.Candidate -> bool, key: bool, cache: map<string, Route>, candidates: seq<MR.Candidate>, i: nat)
    requires i < |candidates|
    ensures CacheAfter(wanted, key, cache, candidates[..i + 1]) == NextCache(wanted, key, CacheAfter(wanted, key, cache, candidates[..i]), candidates[i])
  {
    var w := Filter(wanted, candidates[..i]);
    FilterNext(wanted, candidates, i);
    assert (w + [candidates[i]])[..|w + [candidates[i]]| - 1] == w;
  }

  lemma CacheGrows(wanted: MR.Candidate -> bool, key: bool, cache: map<string, Route>, candidates: seq<MR.Candidate>, i: nat, id: string)
    requires i <= |candidates| && id in CacheAfter(wanted, key, cache, candidates[..i])
    ensures id in CacheAfter(wanted, key, cache, candidates)
    ensures CacheAfter(wanted, key, cache, candidates)[id] == CacheAfter(wanted, key, cache, candidates[..i])[id]
  {
    var w, rest := Filter(wanted, candidates[..i]), Filter(wanted, candidates[i..]);
    assert candidates == candidates[..i] + candidates[i..];
    FilterConcat(wanted, candidates[..i], candidates[i..]);
    RememberConcat(cache, w, rest);
    RememberKeeps(Remember(cache, w), rest);
  }

  lemma BuildNext(wanted: MR.Candidate -> bool, key: bool, cache: map<string, Route>, task: Option<string>, claimed: bool,
                  candidates: seq<MR.Candidate>, i: nat, routes: seq<Route>)
    requires i < |candidates| && Built(wanted, key, cache, task, claimed, candidates, i, routes)
    ensures var c := candidates[i];
            var next := NextCache(wanted, key, CacheAfter(wanted, key, cache, candidates[..i]), c);
            && CacheAfter(wanted, key, cache, candidates[..i + 1]) == next
            && (!wanted(c) ==> Built(wanted, key, cache, task, claimed, candidates, i + 1, routes))
            && (wanted(c) && c.model.id in next ==>
                  Built(wanted, key, cache, task, claimed, candidates, i + 1, routes + [Restated(next[c.model.id], task, claimed, c.model)]))
  {
    var c := candidates[i];
    CacheNext(wanted, key, cache, candidates, i);
    var next := NextCache(wanted, key, CacheAfter(wanted, key, cache, candidates[..i]), c);
    FilterNext(wanted, candidates, i);
    if wanted(c) && c.model.id in next {
      RefreshedNext(wanted, key, cache, task, claimed, candidates, i);
      FlatMapFilterNext(RefreshOne(CacheAfter(wanted, key, cache, candidates), task, claimed), wanted, candidates, i);
    }
  }

  lemma RefreshedNext(wanted: MR.Candidate -> bool, key: bool, cache: map<string, Route>, task: Option<string>, claimed: bool,
                      candidates: seq<MR.Candidate>, i: nat)
    requires i < |candidates| && wanted(candidates[i])
    requires candidates[i].model.id in CacheAfter(wanted, key, cache, candidates[..i + 1])
    ensures RefreshOne(CacheAfter(wanted, key, cache, candidates), task, claimed)(candidates[i])
         == [Restated(CacheAfter(wanted, key, cache, candidates[..i + 1])[candidates[i].model.id], task, claimed, candidates[i].model)]
  {
    CacheGrows(wanted, key, cache, candidates, i + 1, candidates[i].model.id);
  }

  lemma NothingReachable(wanted: MR.Candidate -> bool, cache: map<string, Route>, task: Option<string>, claimed: bool,
                         candidates: seq<MR.Candidate>, c: MR.Candidate)
    requires c in candidates && wanted(c) && c.model.id !in cache
    ensures SynthesizedFrom(wanted, false, cache, task, claimed, candidates) == []
  {
    assert c in Filter(wanted, candidates);
  }

  class LLMRouter {
    const cfg: Config
    var st: State

    constructor (cfg: Config, st: State)
      ensures this.cfg == cfg && this.st == st
    {
      this.cfg := cfg;
      this.st := st;
    }

    method GateRoutes(req: Request, routes: seq<Route>) returns (passed: seq<Route>)
      ensures passed == Filter(Gate(cfg, st, req), routes)
    {
      passed := [];
      ghost var gate := Gate(cfg, st, req);
      for i := 0 to |routes|
        invariant passed == Filter(gate, routes[..i])
      {
        if BlockedReason(cfg, st, req, routes[i]).None? {
          passed := passed + [routes[i]];
        }
        FilterNext(gate, routes, i);
      }
      assert routes[..|routes|] == routes;
    }

    /** `_synthesized_base_route`: built once, then served from the cache. */
    method BaseRoute(m: MR.CatalogModel) returns (base: Option<Route>)
      modifies this`st
      ensures base.Some? <==> m.id in old(st).synthesized || cfg.apiKey
      ensures base.Some? ==> m.id in st.synthesized && base.value == st.synthesized[m.id]
      ensures st == old(st).(synthesized :=
                if m.id in old(st).synthesized || !cfg.apiKey then old(st).synthesized
                else old(st).synthesized[m.id := FreshBase(m)])
    {
      if m.id in st.synthesized {
        return Some(st.synthesized[m.id]);
      }
      if !cfg.apiKey {
        return None;
      }
      st := st.(synthesized := st.synthesized[m.id := FreshBase(m)]);
      return Some(st.synthesized[m.id]);
    }

    method SynthesizeCloudRoutes(candidates: seq<MR.Candidate>, cloud: seq<Route>, task: Option<string>) returns (routes: seq<Route>)
      modifies this`st
      ensures routes == SynthesizedFrom(UncoveredIn(cfg), cfg.apiKey, old(st).synthesized, task, CloudClaimsTask(cloud, task), candidates)
      ensures st == old(st).(synthesized := CacheAfter(UncoveredIn(cfg), cfg.apiKey, old(st).synthesized, candidates))
    {
      var wanted, claimed := UncoveredIn(cfg), CloudClaimsTask(cloud, task);
      routes := [];
      ghost var cache := st.synthesized;
      for i := 0 to |candidates|
        invariant st == old(st).(synthesized := CacheAfter(wanted, cfg.apiKey, cache, candidates[..i]))
        invariant Built(wanted, cfg.apiKey, cache, task, claimed, candidates, i, routes)
      {
        var m := candidates[i].model;
        BuildNext(wanted, cfg.apiKey, cache, task, claimed, candidates, i, routes);
        if wanted(candidates[i]) {
          var base := BaseRoute(m);
          if base.None? {
            NothingReachable(wanted, cache, task, claimed, candidates, candidates[i]);
            return [];
          }
          routes := routes + [Restated(base.value, task, claimed, m)];
        }
      }
      assert candidates[..|candidates|] == candidates;
    }

    method CapabilityOrder(req: Request, cloud: seq<Route>) returns (ordered: seq<Route>)
      modifies this`st
      ensures ordered == CloudOrder(cfg, old(st), req, cloud)
      ensures st == old(st).(synthesized := CacheAfter(UncoveredIn(cfg), cfg.apiKey, old(st).synthesized, Shortlist(cfg, old(st), req.task)))
    {
      var before := st;
      var resolution := MR.ResolveLane(LaneQuery(cfg, st, req.task), cfg.catalog);
      var synthesized := SynthesizeCloudRoutes(resolution.candidates, cloud, req.task);
      var passed := GateRoutes(req, synthesized);
      GateIgnoresCache(cfg, before, st, req, synthesized);
      ordered := LaneOrder(cfg, resolution.candidates, cloud + passed);
    }

    /** `_ordered_routes`. */
    method SelectRoutes(req: Request) returns (ordered: seq<Route>)
      modifies this`st
      ensures ordered == OrderedRoutes(cfg, old(st), req)
      ensures st == StateAfter(cfg, old(st), req)
    {
      var before := st;
      var routes := GateRoutes(req, cfg.routes);
      var local, cloud := Filter(Local(), routes), Filter(Cloud(), routes);
      var reordered := [];
      if cfg.capabilityRouting {
        reordered := CapabilityOrder(req, cloud);
      }
      ordered := Settle(cfg, before, req.task, routes, local, cloud, reordered);
    }
  }

  // ----- no route lost, none invented -----

  lemma LaneOrderPermutes(cfg: Config, candidates: seq<MR.Candidate>, pool: seq<Route>)
    ensures multiset(LaneOrder(cfg, candidates, pool)) == multiset(pool)
  {
    var listed, unlisted := Filter(InLane(cfg, candidates), pool), Filter(NotInLane(cfg, candidates), pool);
    FilterSplits(InLane(cfg, candidates), NotInLane(cfg, candidates), pool);
    SortPermutes(ByPair(LaneRank(cfg, candidates), TransportKind(cfg)), listed);
    SortPermutes(ByPair(KnownLast(cfg), TransportKind(cfg)), unlisted);
  }

  lemma ArrangePermutes(strategy: Strategy, score: Route -> int, routes: seq<Route>, local: seq<Route>, cloud: seq<Route>)
    requires multiset(routes) == multiset(local) + multiset(cloud)
    ensures multiset(Arrange(strategy, score, routes, local, cloud)) == multiset(routes)
  {
    SortPermutes(Descending(score), routes);
    SortPermutes(Descending(score), local);
    SortPermutes(Descending(score), cloud);
  }

  /** The gate-passing catalog-derived routes of a decision. */
  function SynthesizedPassing(cfg: Config, st: State, req: Request): seq<Route> {
    if cfg.capabilityRouting then
      Filter(Gate(cfg, st, req), SynthesizedRoutes(cfg, st, req.task, Filter(Cloud(), Filter(Gate(cfg, st, req), cfg.routes))))
    else []
  }

  lemma ReorderedPermutes(cfg: Config, st: State, req: Request, cloud: seq<Route>)
    requires cfg.capabilityRouting && cloud == Filter(Cloud(), Filter(Gate(cfg, st, req), cfg.routes))
    ensures multiset(Reordered(cfg, st, req, cloud)) == multiset(cloud) + multiset(SynthesizedPassing(cfg, st, req))
  {
    LaneOrderPermutes(cfg, Shortlist(cfg, st, req.task), CloudPool(cfg, st, req, cloud));
  }

  lemma SettlePermutes(cfg: Config, st: State, task: Option<string>, routes: seq<Route>, local: seq<Route>, cloud: seq<Route>, reordered: seq<Route>)
    requires multiset(routes) == multiset(local) + multiset(cloud)
    ensures multiset(Settle(cfg, st, task, routes, local, cloud, reordered))
         == multiset(local) + multiset(if reordered == [] then cloud else reordered)
  {
    if reordered == [] {
      ArrangePermutes(cfg.strategy, Score(cfg, st, task, map[]), routes, local, cloud);
    } else {
      var deal := Deal(Anchors(cloud, reordered), reordered);
      assert multiset(local + reordered) == multiset(local) + multiset(reordered);
      ArrangePermutes(cfg.strategy, Score(cfg, st, task, deal), local + reordered, local, reordered);
    }
  }

  /** The answer is exactly the gate-passing configured routes and the
      gate-passing catalog-derived ones, in some order. */
  lemma NothingLostNothingInvented(cfg: Config, st: State, req: Request)
    ensures multiset(OrderedRoutes(cfg, st, req))
         == multiset(Filter(Gate(cfg, st, req), cfg.routes)) + multiset(SynthesizedPassing(cfg, st, req))
  {
    var routes := Filter(Gate(cfg, st, req), cfg.routes);
    var local, cloud := Filter(Local(), routes), Filter(Cloud(), routes);
    FilterSplits(Local(), Cloud(), routes);
    var reordered := Reordered(cfg, st, req, cloud);
    if cfg.capabilityRouting {
      ReorderedPermutes(cfg, st, req, cloud);
    }
    SettlePermutes(cfg, st, req.task, routes, local, cloud, reordered);
  }

  lemma EveryRoutePassesTheGate(cfg: Config, st: State, req: Request)
    ensures forall r :: r in OrderedRoutes(cfg, st, req) ==> BlockedReason(cfg, st, req, r).None?
  {
    NothingLostNothingInvented(cfg, st, req);
    var ordered, routes, synthesized := OrderedRoutes(cfg, st, req), Filter(Gate(cfg, st, req), cfg.routes), SynthesizedPassing(cfg, st, req);
    forall r | r in ordered ensures BlockedReason(cfg, st, req, r).None? {
      assert r in multiset(ordered);
      assert r in routes || r in synthesized;
      assert Gate(cfg, st, req)(r);
    }
  }

  /** When a turn must stay local no route returned is a cloud route, catalog
      derived or configured; the free tier never appears at all. */
  lemma NoCloudWhenIneligible(cfg: Config, st: State, req: Request)
    ensures forall r :: r in OrderedRoutes(cfg, st, req) ==>
              && !r.IsFreeTier() && !TemporarilyBlocked(st, r)
              && (r.IsCloud() ==>
                    && req.contextEligible && req.cloudAllowed && !cfg.strategy.LocalOnly?
                    && (req.policy.Some? ==> req.policy.value in r.policies))
              && (req.requireTools ==> r.ReliableToolCalling())
              && (req.forceSecondary || cfg.strategy.CloudOnly? ==> r.IsCloud())
  {
    EveryRoutePassesTheGate(cfg, st, req);
  }

  // ----- catalog-derived routes -----

  /** What the router's constructor and `BaseRoute` keep of the cache. */
  ghost predicate CacheSane(cache: map<string, Route>) {
    forall k :: k in cache ==> cache[k].name == "catalog:" + k && cache[k].model == k && cache[k].catalogDerived
  }

  lemma {:induction false} RememberSane(cache: map<string, Route>, winners: seq<MR.Candidate>)
    requires CacheSane(cache)
    ensures CacheSane(Remember(cache, winners))
  {
    if winners != [] {
      RememberSane(cache, winners[..|winners| - 1]);
    }
  }

  lemma StateStaysSane(cfg: Config, st: State, req: Request)
    requires CacheSane(st.synthesized)
    ensures CacheSane(StateAfter(cfg, st, req).synthesized)
  {
    RememberSane(st.synthesized, Filter(UncoveredIn(cfg), Shortlist(cfg, st, req.task)));
  }

  function ModelName(): MR.Candidate -> seq<string> {
    (c: MR.Candidate) => ["catalog:" + c.model.id]
  }

  function Name(): Route -> seq<string> {
    (r: Route) => [r.name]
  }

  lemma {:induction false} RefreshedMembers(cache: map<string, Route>, task: Option<string>, claimed: bool, winners: seq<MR.Candidate>)
    requires CacheSane(cache)
    ensures FlatMap(Name(), FlatMap(RefreshOne(cache, task, claimed), winners)) == FlatMap(ModelName(), winners)
    ensures forall r :: r in FlatMap(RefreshOne(cache, task, claimed), winners) ==>
              r.catalogDerived && r.IsCloud() && exists c :: c in winners && c.model.id == r.model && r.name == "catalog:" + r.model
  {
    if winners != [] {
      RefreshedMembers(cache, task, claimed, winners[1..]);
      var one := RefreshOne(cache, task, claimed)(winners[0]);
      FlatMapConcat(Name(), one, FlatMap(RefreshOne(cache, task, claimed), winners[1..]));
      assert winners == [winners[0]] + winners[1..];
      assert FlatMap(Name(), one) == [one[0].name];
    }
  }

  lemma SynthesizedMembers(cfg: Config, st: State, task: Option<string>, cloud: seq<Route>)
    requires CacheSane(st.synthesized)
    ensures var routes := SynthesizedRoutes(cfg, st, task, cloud);
            var winners := Filter(UncoveredIn(cfg), Shortlist(cfg, st, task));
            && (routes == [] || FlatMap(Name(), routes) == FlatMap(ModelName(), winners))
            && forall r :: r in routes ==>
                 r.catalogDerived && r.IsCloud() && exists c :: c in winners && c.model.id == r.model && r.name == "catalog:" + r.model
  {
    var winners := Filter(UncoveredIn(cfg), Shortlist(cfg, st, task));
    RememberSane(st.synthesized, winners);
    RefreshedMembers(CacheAfter(UncoveredIn(cfg), cfg.apiKey, st.synthesized, Shortlist(cfg, st, task)), task,
                     CloudClaimsTask(cloud, task), winners);
  }

  /** An operator who configured a model keeps the say over it, and a failing
      model does not come back under a catalog-derived name: every catalog-derived
      route returned is a paid winner of the turn's lane that no configured cloud
      route covers and no breaker has benched. */
  lemma CatalogDerivedAreUnbenchedWinners(cfg: Config, st: State, req: Request)
    requires CacheSane(st.synthesized) && (forall r :: r in cfg.routes ==> !r.catalogDerived)
    requires cfg.laneFor(req.task).minContextTokens >= 0
    ensures forall r :: r in OrderedRoutes(cfg, st, req) && r.catalogDerived ==>
              && r.model !in ConfiguredIds(cfg) && r.model !in BenchedModels(cfg, st)
              && exists m :: m in cfg.catalog && m.id == r.model && MR.Qualifies(LaneQuery(cfg, st, req.task), m)
  {
    var q := LaneQuery(cfg, st, req.task);
    var ordered, synthesized := OrderedRoutes(cfg, st, req), SynthesizedPassing(cfg, st, req);
    NothingLostNothingInvented(cfg, st, req);
    SynthesizedMembers(cfg, st, req.task, Filter(Cloud(), Filter(Gate(cfg, st, req), cfg.routes)));
    MR.ShortlistStaysInLane(q, cfg.catalog);
    forall r | r in ordered && r.catalogDerived
      ensures && r.model !in ConfiguredIds(cfg) && r.model !in BenchedModels(cfg, st)
              && exists m :: m in cfg.catalog && m.id == r.model && MR.Qualifies(q, m)
    {
      assert r in multiset(ordered);
      assert r in synthesized;
      var c :| c in Filter(UncoveredIn(cfg), Shortlist(cfg, st, req.task)) && c.model.id == r.model;
      assert c in Shortlist(cfg, st, req.task);
    }
  }

  // ----- the redealt anchors -----

  ghost predicate DistinctNames(routes: seq<Route>) {
    forall i, j :: 0 <= i < j < |routes| ==> routes[i].name != routes[j].name
  }

  lemma NamesApart(routes: seq<Route>, x: Route, y: Route)
    requires DistinctNames(routes) && x in routes && y in routes && x != y
    ensures x.name != y.name
  {
    var i :| 0 <= i < |routes| && routes[i] == x;
    var j :| 0 <= j < |routes| && routes[j] == y;
    assert i < j || j < i;
  }

  lemma {:induction false} DealtAt(anchors: seq<int>, reordered: seq<Route>, i: nat)
    requires DistinctNames(reordered) && i < |reordered|
    ensures reordered[i].name in Deal(anchors, reordered)
    ensures Deal(anchors, reordered)[reordered[i].name] == if i < |anchors| then anchors[i] else 0
  {
    var n := |reordered| - 1;
    if i < n {
      DealtAt(anchors, reordered[..n], i);
    }
  }

  lemma NamesOnce(routes: seq<Route>)
    ensures DistinctNames(routes) <==> Once(FlatMap(Name(), routes))
  {
    SingletonsAt(Name(), routes);
    OnceIffDistinct(FlatMap(Name(), routes));
    var names := FlatMap(Name(), routes);
    assert forall i :: 0 <= i < |routes| ==> names[i] == routes[i].name;
  }

  lemma ShortlistNamesOnce(q: MR.Query, catalog: seq<MR.CatalogModel>, p: MR.Candidate -> bool)
    requires MR.DistinctIds(catalog)
    ensures Once(FlatMap(ModelName(), Filter(p, MR.Resolve(q, catalog).candidates)))
  {
    var candidates := Filter(p, MR.Resolve(q, catalog).candidates);
    MR.ResolutionIdsOnce(q, catalog);
    FlatMapOfFilter(MR.CandidateId(), p, MR.Resolve(q, catalog).candidates);
    var ids, names := FlatMap(MR.CandidateId(), candidates), FlatMap(ModelName(), candidates);
    forall x ensures multiset(ids)[x] <= 1 {
      assert multiset(FlatMap(MR.CandidateId(), MR.Resolve(q, catalog).candidates))[x] <= 1;
    }
    OnceIffDistinct(ids);
    SingletonsAt(MR.CandidateId(), candidates);
    SingletonsAt(ModelName(), candidates);
    forall i, j | 0 <= i < j < |names| ensures names[i] != names[j] {
      assert ids[i] != ids[j];
      assert names[i][8..] == ids[i] && names[j][8..] == ids[j];
    }
    OnceIffDistinct(names);
  }

  /** What the source asks of a profile file: names are unique and do not trespass
      on the catalog's prefix, and only the router derives routes from the catalog. */
  ghost predicate WellConfigured(cfg: Config) {
    && DistinctNames(cfg.routes) && MR.DistinctIds(cfg.catalog)
    && forall r :: r in cfg.routes ==> !r.catalogDerived && !("catalog:" <= r.name)
  }

  lemma PoolNamesDistinct(cfg: Config, st: State, req: Request)
    requires WellConfigured(cfg) && CacheSane(st.synthesized)
    ensures DistinctNames(Filter(Gate(cfg, st, req), cfg.routes) + SynthesizedPassing(cfg, st, req))
  {
    var routes := Filter(Gate(cfg, st, req), cfg.routes);
    var cloud := Filter(Cloud(), routes);
    var made, passing := SynthesizedRoutes(cfg, st, req.task, cloud), SynthesizedPassing(cfg, st, req);
    NamesOnce(cfg.routes);
    FlatMapOfFilter(Name(), Gate(cfg, st, req), cfg.routes);
    FewerOnce(FlatMap(Name(), routes), FlatMap(Name(), cfg.routes));
    SynthesizedMembers(cfg, st, req.task, cloud);
    ShortlistNamesOnce(LaneQuery(cfg, st, req.task), cfg.catalog, UncoveredIn(cfg));
    FlatMapOfFilter(Name(), Gate(cfg, st, req), made);
    FewerOnce(FlatMap(Name(), passing), FlatMap(Name(), made));
    FlatMapConcat(Name(), routes, passing);
    NamesOf(routes);
    NamesOf(passing);
    OnceConcat(FlatMap(Name(), routes), FlatMap(Name(), passing));
    NamesOnce(routes + passing);
  }

  lemma NamesOf(routes: seq<Route>)
    ensures forall x :: x in FlatMap(Name(), routes) ==> exists r :: r in routes && r.name == x
  {
    SingletonsAt(Name(), routes);
    var names := FlatMap(Name(), routes);
    forall x | x in names ensures exists r :: r in routes && r.name == x {
      var i :| 0 <= i < |names| && names[i] == x;
      assert routes[i] in routes && routes[i].name == x;
    }
  }

  /** The number that stands in for a route's own priority. */
  function Dealt(deal: map<string, int>): Route -> seq<int> {
    (r: Route) => [Base(deal)(r)]
  }

  lemma DealtInOrder(anchors: seq<int>, reordered: seq<Route>)
    requires DistinctNames(reordered) && |anchors| == |reordered|
    ensures FlatMap(Dealt(Deal(anchors, reordered)), reordered) == anchors
    ensures forall i :: 0 <= i < |reordered| ==> Base(Deal(anchors, reordered))(reordered[i]) == anchors[i]
  {
    var deal := Deal(anchors, reordered);
    SingletonsAt(Dealt(deal), reordered);
    forall i | 0 <= i < |reordered| ensures Base(deal)(reordered[i]) == anchors[i] {
      DealtAt(anchors, reordered, i);
    }
  }

  lemma DistinctNamesPermuted(s: seq<Route>, t: seq<Route>)
    requires multiset(s) == multiset(t) && DistinctNames(s)
    ensures DistinctNames(t)
  {
    NamesOnce(s);
    NamesOnce(t);
    FlatMapPermutes(Name(), s, t);
    FewerOnce(FlatMap(Name(), t), FlatMap(Name(), s));
  }

  /** The cloud family of a decision: the gate-passing configured cloud routes. */
  function GatedCloud(cfg: Config, st: State, req: Request): seq<Route> {
    Filter(Cloud(), Filter(Gate(cfg, st, req), cfg.routes))
  }

  lemma AnchorsPermutePriorities(cfg: Config, st: State, req: Request)
    requires WellConfigured(cfg) && CacheSane(st.synthesized) && cfg.capabilityRouting
    ensures var cloud := GatedCloud(cfg, st, req);
            var reordered := Reordered(cfg, st, req, cloud);
            && multiset(Anchors(cloud, reordered)) == multiset(FlatMap(Priority(), reordered))
            && |Anchors(cloud, reordered)| == |reordered|
  {
    var cloud, passing := GatedCloud(cfg, st, req), SynthesizedPassing(cfg, st, req);
    var reordered := Reordered(cfg, st, req, cloud);
    ReorderedPermutes(cfg, st, req, cloud);
    SynthesizedMembers(cfg, st, req.task, cloud);
    assert multiset(reordered) == multiset(cloud + passing);
    FilterPermutes(Derived(), reordered, cloud + passing);
    FilterConcat(Derived(), cloud, passing);
    FilterNone(Derived(), cloud);
    FilterAll(Derived(), passing);
    FlatMapPermutes(Priority(), Filter(Derived(), reordered), passing);
    FlatMapPermutes(Priority(), reordered, cloud + passing);
    FlatMapConcat(Priority(), cloud, passing);
    SortPermutes(Descending(Identity()), FlatMap(Priority(), cloud) + FlatMap(Priority(), Filter(Derived(), reordered)));
    SingletonsAt(Priority(), reordered);
    SameElements(Anchors(cloud, reordered), FlatMap(Priority(), reordered));
  }

  lemma PoolReordered(cfg: Config, st: State, req: Request)
    requires WellConfigured(cfg) && CacheSane(st.synthesized) && cfg.capabilityRouting
    ensures var routes := Filter(Gate(cfg, st, req), cfg.routes);
            var reordered := Reordered(cfg, st, req, GatedCloud(cfg, st, req));
            DistinctNames(reordered) && DistinctNames(Filter(Local(), routes) + reordered)
  {
    var routes, cloud, passing := Filter(Gate(cfg, st, req), cfg.routes), GatedCloud(cfg, st, req), SynthesizedPassing(cfg, st, req);
    var local, reordered := Filter(Local(), routes), Reordered(cfg, st, req, cloud);
    PoolNamesDistinct(cfg, st, req);
    FilterSplits(Local(), Cloud(), routes);
    ReorderedPermutes(cfg, st, req, cloud);
    assert multiset(routes + passing) == multiset(local + reordered);
    DistinctNamesPermuted(routes + passing, local + reordered);
    NamesOnce(local + reordered);
    NamesOnce(reordered);
    FlatMapConcat(Name(), local, reordered);
    FewerOnce(FlatMap(Name(), reordered), FlatMap(Name(), local + reordered));
  }

  /** Redealing changes who holds which priority and nothing else: the numbers
      dealt to the cloud family are its own, highest to the lane's first choice. */
  lemma RedealPermutesPriorities(cfg: Config, st: State, req: Request)
    requires WellConfigured(cfg) && CacheSane(st.synthesized) && cfg.capabilityRouting
    ensures var cloud := GatedCloud(cfg, st, req);
            var reordered := Reordered(cfg, st, req, cloud);
            var deal := Deal(Anchors(cloud, reordered), reordered);
            && multiset(FlatMap(Dealt(deal), reordered)) == multiset(FlatMap(Priority(), reordered))
            && forall i, j :: 0 <= i < j < |reordered| ==> Base(deal)(reordered[i]) >= Base(deal)(reordered[j])
  {
    var cloud := GatedCloud(cfg, st, req);
    var reordered := Reordered(cfg, st, req, cloud);
    var anchors := Anchors(cloud, reordered);
    AnchorsPermutePriorities(cfg, st, req);
    PoolReordered(cfg, st, req);
    DealtInOrder(anchors, reordered);
    KeyOrders(Identity(), Identity());
    AnchorsDescend(cloud, reordered);
  }

  lemma AnchorsDescend(cloud: seq<Route>, reordered: seq<Route>)
    ensures forall i, j :: 0 <= i < j < |Anchors(cloud, reordered)| ==> Anchors(cloud, reordered)[i] >= Anchors(cloud, reordered)[j]
  {
    var pool := FlatMap(Priority(), cloud) + FlatMap(Priority(), Filter(Derived(), reordered));
    KeyOrders(Identity(), Identity());
    SortOrders(Descending(Identity()), pool);
  }

  // ----- the lane decides among equals -----

  lemma ArrangeStable(strategy: Strategy, score: Route -> int, local: seq<Route>, cloud: seq<Route>, x: Route, y: Route)
    requires Distinct(local + cloud) && Precedes(cloud, x, y) && score(x) >= score(y)
    ensures Precedes(Arrange(strategy, score, local + cloud, local, cloud), x, y)
  {
    KeyOrders(score, score);
    assert Distinct(cloud) by {
      forall i, j | 0 <= i < j < |cloud| ensures cloud[i] != cloud[j] {
        assert (local + cloud)[|local| + i] != (local + cloud)[|local| + j];
      }
    }
    SortStable(Descending(score), cloud, x, y);
    PrecedesInConcat(local, cloud, x, y);
    SortStable(Descending(score), local + cloud, x, y);
    PrecedesInConcat(SortByScore(score, local), SortByScore(score, cloud), x, y);
    PrecedesInConcat(SortByScore(score, cloud), SortByScore(score, local), x, y);
  }

  /** The lane's order survives to the end between cloud routes whose tier, task
      match, tool quality and headroom earn the same. */
  lemma EqualMeritKeepsLaneOrder(cfg: Config, st: State, req: Request, x: Route, y: Route)
    requires WellConfigured(cfg) && CacheSane(st.synthesized) && cfg.capabilityRouting
    requires Precedes(Reordered(cfg, st, req, GatedCloud(cfg, st, req)), x, y)
    requires Merit(cfg, st, req.task)(x) >= Merit(cfg, st, req.task)(y)
    ensures Precedes(OrderedRoutes(cfg, st, req), x, y)
  {
    var local, cloud := Filter(Local(), Filter(Gate(cfg, st, req), cfg.routes)), GatedCloud(cfg, st, req);
    var reordered := Reordered(cfg, st, req, cloud);
    var deal := Deal(Anchors(cloud, reordered), reordered);
    RedealPermutesPriorities(cfg, st, req);
    PoolReordered(cfg, st, req);
    ArrangeStable(cfg.strategy, Score(cfg, st, req.task, deal), local, reordered, x, y);
  }

  /** Among cloud routes of equal merit: the model the lane ranks earlier first;
      of one model the aggregator before the direct provider; a model the lane
      did not list after every one it did. */
  lemma LaneDecidesAmongEquals(cfg: Config, st: State, req: Request, x: Route, y: Route)
    requires WellConfigured(cfg) && CacheSane(st.synthesized) && cfg.capabilityRouting
    requires x in OrderedRoutes(cfg, st, req) && y in OrderedRoutes(cfg, st, req) && x.IsCloud() && y.IsCloud()
    requires Merit(cfg, st, req.task)(x) == Merit(cfg, st, req.task)(y)
    requires var lane := Shortlist(cfg, st, req.task);
             && InLane(cfg, lane)(x)
             && (InLane(cfg, lane)(y) ==> ByPair(LaneRank(cfg, lane), TransportKind(cfg))(x, y))
    ensures Precedes(OrderedRoutes(cfg, st, req), x, y)
  {
    var lane, cloud := Shortlist(cfg, st, req.task), GatedCloud(cfg, st, req);
    var pool := CloudPool(cfg, st, req, cloud);
    CloudRoutesArePool(cfg, st, req, x);
    CloudRoutesArePool(cfg, st, req, y);
    LaneOrderPrecedes(cfg, lane, pool, x, y);
    EqualMeritKeepsLaneOrder(cfg, st, req, x, y);
  }

  lemma CloudRoutesArePool(cfg: Config, st: State, req: Request, x: Route)
    requires cfg.capabilityRouting && x in OrderedRoutes(cfg, st, req) && x.IsCloud()
    ensures x in CloudPool(cfg, st, req, GatedCloud(cfg, st, req))
  {
    NothingLostNothingInvented(cfg, st, req);
    var routes, passing := Filter(Gate(cfg, st, req), cfg.routes), SynthesizedPassing(cfg, st, req);
    assert x in multiset(OrderedRoutes(cfg, st, req));
    assert x in routes || x in passing;
    assert x in routes ==> x in Filter(Cloud(), routes);
  }

  lemma LaneOrderPrecedes(cfg: Config, lane: seq<MR.Candidate>, pool: seq<Route>, x: Route, y: Route)
    requires x in pool && y in pool && InLane(cfg, lane)(x)
    requires InLane(cfg, lane)(y) ==> ByPair(LaneRank(cfg, lane), TransportKind(cfg))(x, y)
    ensures Precedes(LaneOrder(cfg, lane, pool), x, y)
  {
    KeyOrders(LaneRank(cfg, lane), TransportKind(cfg));
    GroupedPrecedes(ByPair(LaneRank(cfg, lane), TransportKind(cfg)), ByPair(KnownLast(cfg), TransportKind(cfg)),
                    InLane(cfg, lane), NotInLane(cfg, lane), pool, x, y);
  }
}
