/** Resolving a lane to an ordered shortlist of catalog models: hard filters,
    quality floors, the cost of the declared turn, the tier's share-of-best gate
    and the tier's comparator. Prices, indices and latencies are reals. */
module ModelResolver {
  import opened Text
  import opened StableSort

  datatype Tier = Best | Auto | Fast | Cheap

  const MARGIN_SHARE_GATE := 0.35

  const ROUTER_PSEUDO_MODELS: set<string> := {"openrouter/auto", "openrouter/auto-beta", "openrouter/free"}

  /** `expires` is the parsed expiration instant; an absent or unreadable date
      is `None`. */
  datatype CatalogModel = CatalogModel(
    id: string, contextLength: int, promptPrice: real, completionPrice: real, cacheReadPrice: Option<real>,
    supported: set<string>, intelligence: Option<real>, coding: Option<real>, agentic: Option<real>, expires: Option<int>)
  {
    function Suffixes(): seq<string> {
      Split(Lower(id), ':')[1..]
    }

    predicate IsFreeTier() {
      "free" in Suffixes() || "free-tier" in Suffixes()
    }

    predicate IsBatchTier() {
      "batch" in Suffixes()
    }

    predicate IsRouterPseudoModel() {
      Split(Lower(id), ':')[0] in ROUTER_PSEUDO_MODELS
    }

    predicate IsPreview() {
      var l := Lower(id);
      Contains(l, "-preview") || Contains(l, "-exp") || Contains(l, ":alpha") || Contains(l, ":beta") || Contains(l, "-experimental")
    }

    function CostPerTurn(expectedIn: int, expectedOut: int, cachedIn: int): real {
      var freshIn := if expectedIn > cachedIn then expectedIn - cachedIn else 0;
      var base := freshIn as real * promptPrice + expectedOut as real * completionPrice;
      if cachedIn == 0 then base
      else base + cachedIn as real * (if cacheReadPrice.Some? then cacheReadPrice.value else promptPrice)
    }
  }

  datatype Lane = Lane(
    name: string, must: seq<string>, minContextTokens: int, maxPromptPricePerMillion: Option<real>,
    minIntelligence: Option<real>, minCoding: Option<real>, minAgentic: Option<real>, allowPreview: bool,
    expectedIn: int, expectedOut: int, expectedCachedIn: int, shortlistSize: int)

  /** Everything a resolution depends on besides the catalog. */
  datatype Query = Query(lane: Lane, tier: Tier, benched: set<string>, latencies: map<string, real>, now: int)

  datatype Axis = Intelligence | Coding | Agentic

  datatype Reason =
    | FreeTier | BatchTier | RouterPseudoModel | Preview | Benched | MissingParameters(names: seq<string>)
    | ContextTooShort | ExpiredModel | PromptPriceAboveCeiling | NoIndex(axis: Axis) | BelowFloor(axis: Axis)
    | NonPositiveCost | BelowMarginShare

  datatype Candidate = Candidate(model: CatalogModel, cost: real, margin: real, observed: Option<real>)
  {
    function Id(): string { model.id }
  }

  datatype Rejection = Rejection(modelId: string, reason: Reason)

  datatype Objective = Tiered(tier: Tier) | NoLatencyObserved

  datatype Resolution = Resolution(
    candidates: seq<Candidate>, rejections: seq<Rejection>, tier: Tier, objective: Objective,
    clearedFloors: nat, survivedGate: nat, bestAvailableMargin: real)

  // ----- screening one model -----

  function Surplus(floor: Option<real>, value: Option<real>): real {
    if floor.None? then 0.0
    else
      var v := if value.Some? then value.value else 0.0;
      if v > floor.value then v - floor.value else 0.0
  }

  /** Headroom over the lane's declared floors, per axis and summed; over zero
      intelligence when the lane declares none. */
  function Margin(model: CatalogModel, lane: Lane): real {
    if lane.minIntelligence.None? && lane.minCoding.None? && lane.minAgentic.None? then
      if model.intelligence.Some? && model.intelligence.value > 0.0 then model.intelligence.value else 0.0
    else
      Surplus(lane.minIntelligence, model.intelligence) + Surplus(lane.minCoding, model.coding)
      + Surplus(lane.minAgentic, model.agentic)
  }

  function FloorFailure(floor: Option<real>, value: Option<real>, axis: Axis): Option<Reason> {
    if floor.None? then None
    else if value.None? then Some(NoIndex(axis))
    else if value.value < floor.value then Some(BelowFloor(axis))
    else None
  }

  function FirstFloorFailure(lane: Lane, model: CatalogModel): Option<Reason> {
    var i := FloorFailure(lane.minIntelligence, model.intelligence, Intelligence);
    var c := FloorFailure(lane.minCoding, model.coding, Coding);
    if i.Some? then i else if c.Some? then c
    else FloorFailure(lane.minAgentic, model.agentic, Agentic)
  }

  function Cost(lane: Lane, model: CatalogModel): real {
    model.CostPerTurn(lane.expectedIn, lane.expectedOut, lane.expectedCachedIn)
  }

  function Missing(lane: Lane, model: CatalogModel): seq<string> {
    Filter(p => p !in model.supported, lane.must)
  }

  /** Why a model is out before the tier's gate, in the order the checks run. */
  function Screen(q: Query, model: CatalogModel): Option<Reason> {
    var lane := q.lane;
    if model.IsFreeTier() then Some(FreeTier)
    else if model.IsBatchTier() then Some(BatchTier)
    else if model.IsRouterPseudoModel() then Some(RouterPseudoModel)
    else if model.IsPreview() && !lane.allowPreview then Some(Preview)
    else if model.id in q.benched then Some(Benched)
    else if Missing(lane, model) != [] then Some(MissingParameters(Missing(lane, model)))
    else if lane.minContextTokens != 0 && model.contextLength < lane.minContextTokens then Some(ContextTooShort)
    else if model.expires.Some? && model.expires.value <= q.now then Some(ExpiredModel)
    else if lane.maxPromptPricePerMillion.Some? && model.promptPrice > lane.maxPromptPricePerMillion.value / 1000000.0
      then Some(PromptPriceAboveCeiling)
    else if FirstFloorFailure(lane, model).Some? then FirstFloorFailure(lane, model)
    else if !(Cost(lane, model) > 0.0) then Some(NonPositiveCost)
    else None
  }

  function CandidateFor(q: Query, model: CatalogModel): Candidate {
    Candidate(model, Cost(q.lane, model), Margin(model, q.lane),
              if model.id in q.latencies then Some(q.latencies[model.id]) else None)
  }

  // ----- the whole catalog -----

  function ClearOne(q: Query): CatalogModel -> seq<Candidate> {
    m => if Screen(q, m).None? then [CandidateFor(q, m)] else []
  }

  function RejectOne(q: Query): CatalogModel -> seq<Rejection> {
    m => match Screen(q, m) case Some(why) => [Rejection(m.id, why)] case None => []
  }

  function Cleared(q: Query, catalog: seq<CatalogModel>): seq<Candidate> {
    FlatMap(ClearOne(q), catalog)
  }

  function Screened(q: Query, catalog: seq<CatalogModel>): seq<Rejection> {
    FlatMap(RejectOne(q), catalog)
  }

  function BestMargin(cs: seq<Candidate>): (m: real)
    ensures cs != [] ==> exists c :: c in cs && c.margin == m
    ensures forall c :: c in cs ==> c.margin <= m
    ensures cs == [] ==> m == 0.0
  {
    if cs == [] then 0.0
    else
      var rest := BestMargin(cs[1..]);
      assert cs == [cs[0]] + cs[1..];
      if |cs| == 1 || cs[0].margin >= rest then cs[0].margin else rest
  }

  /** `best` and `cheap` rank everything that cleared; `auto` and `fast` only
      what reaches a share of the best margin. */
  predicate Passes(tier: Tier, best: real, c: Candidate) {
    (tier.Auto? || tier.Fast?) && best > 0.0 ==> c.margin >= MARGIN_SHARE_GATE * best
  }

  function Gated(tier: Tier, cs: seq<Candidate>): seq<Candidate> {
    var best := BestMargin(cs);
    Filter(c => Passes(tier, best, c), cs)
  }

  function Ids(cs: seq<Candidate>): set<string> {
    set c | c in cs :: c.Id()
  }

  function Losers(tier: Tier, cs: seq<Candidate>): seq<Candidate> {
    var kept := Ids(Gated(tier, cs));
    Filter((c: Candidate) => c.Id() !in kept, cs)
  }

  // ----- the comparator -----

  /** The sort key of every tier, padded to one shape. It ends in the model id. */
  datatype Key = Key(k1: real, k2: real, k3: real, k4: real, id: string)

  function KeyOf(tier: Tier, c: Candidate): Key {
    match tier
    case Best => Key(-c.margin, c.cost, 0.0, 0.0, c.Id())
    case Cheap => Key(c.cost, -c.margin, 0.0, 0.0, c.Id())
    case Fast =>
      Key(if c.observed.None? then 1.0 else 0.0, (if c.observed.Some? then c.observed.value else 0.0) * c.cost,
          c.cost, -c.margin, c.Id())
    case Auto => Key(if c.cost == 0.0 then 0.0 else -(c.margin / c.cost), c.cost, 0.0, 0.0, c.Id())
  }

  predicate KeyLess(a: Key, b: Key) {
    if a.k1 != b.k1 then a.k1 < b.k1
    else if a.k2 != b.k2 then a.k2 < b.k2
    else if a.k3 != b.k3 then a.k3 < b.k3
    else if a.k4 != b.k4 then a.k4 < b.k4
    else Less(a.id, b.id)
  }

  function Before(tier: Tier): (Candidate, Candidate) -> bool {
    (a, b) => KeyLess(KeyOf(tier, a), KeyOf(tier, b))
  }

  lemma KeyLessTotal(a: Key, b: Key)
    ensures !KeyLess(a, a)
    ensures a != b ==> KeyLess(a, b) || KeyLess(b, a)
  {
    LessTotal(a.id, b.id);
  }

  lemma KeyLessTransitive(a: Key, b: Key, c: Key)
    requires KeyLess(a, b) && KeyLess(b, c)
    ensures KeyLess(a, c)
  {
    if Less(a.id, b.id) && Less(b.id, c.id) {
      LessTransitive(a.id, b.id, c.id);
    }
  }

  lemma BeforeIsWeakOrder(tier: Tier)
    ensures StrictWeakOrder(Before(tier))
  {
    var lt := Before(tier);
    forall x ensures !lt(x, x) {
      KeyLessTotal(KeyOf(tier, x), KeyOf(tier, x));
    }
    forall x, y, z | lt(x, y) && lt(y, z) ensures lt(x, z) {
      KeyLessTransitive(KeyOf(tier, x), KeyOf(tier, y), KeyOf(tier, z));
    }
    forall x, y, z | lt(x, z) ensures lt(x, y) || lt(y, z) {
      var a, b, c := KeyOf(tier, x), KeyOf(tier, y), KeyOf(tier, z);
      KeyLessTotal(a, b);
      if KeyLess(b, a) {
        KeyLessTransitive(b, a, c);
      }
    }
  }

  /** The ranking is a total order: no two models with different ids tie. */
  lemma BeforeIsTotal(tier: Tier, a: Candidate, b: Candidate)
    requires a.Id() != b.Id()
    ensures Before(tier)(a, b) != Before(tier)(b, a)
  {
    var lt := Before(tier);
    KeyLessTotal(KeyOf(tier, a), KeyOf(tier, b));
    KeyLessTotal(KeyOf(tier, b), KeyOf(tier, b));
    if lt(a, b) && lt(b, a) {
      KeyLessTransitive(KeyOf(tier, b), KeyOf(tier, a), KeyOf(tier, b));
    }
  }

  // ----- the resolution -----

  function Ranked(q: Query, catalog: seq<CatalogModel>): seq<Candidate> {
    Sorted(Before(q.tier), Gated(q.tier, Cleared(q, catalog)))
  }

  function ShortlistLength(lane: Lane, n: nat): nat {
    var size := if lane.shortlistSize > 1 then lane.shortlistSize else 1;
    if n < size then n else size
  }

  function GateRejection(): Candidate -> seq<Rejection> {
    (c: Candidate) => [Rejection(c.Id(), BelowMarginShare)]
  }

  function GateRejections(losers: seq<Candidate>): seq<Rejection> {
    FlatMap(GateRejection(), losers)
  }

  function Resolve(q: Query, catalog: seq<CatalogModel>): Resolution {
    var cs := Cleared(q, catalog);
    var ranked := Ranked(q, catalog);
    SortPermutes(Before(q.tier), Gated(q.tier, cs));
    Resolution(
      ranked[..ShortlistLength(q.lane, |ranked|)],
      Screened(q, catalog) + GateRejections(Losers(q.tier, cs)),
      q.tier,
      if q.tier.Fast? && (forall c :: c in Gated(q.tier, cs) ==> c.observed.None?) then NoLatencyObserved else Tiered(q.tier),
      |cs|, |ranked|, BestMargin(cs))
  }

  ghost predicate DistinctIds(catalog: seq<CatalogModel>) {
    forall i, j :: 0 <= i < j < |catalog| ==> catalog[i].id != catalog[j].id
  }

  method CheckFloors(lane: Lane, model: CatalogModel) returns (why: Option<Reason>)
    ensures why == FirstFloorFailure(lane, model)
  {
    var axes := [(lane.minIntelligence, model.intelligence, Intelligence), (lane.minCoding, model.coding, Coding),
                 (lane.minAgentic, model.agentic, Agentic)];
    var i := 0;
    while i < |axes|
      invariant 0 <= i <= |axes|
      invariant i >= 1 ==> FloorFailure(axes[0].0, axes[0].1, axes[0].2).None?
      invariant i >= 2 ==> FloorFailure(axes[1].0, axes[1].1, axes[1].2).None?
      invariant i >= 3 ==> FloorFailure(axes[2].0, axes[2].1, axes[2].2).None?
    {
      var (floor, value, axis) := axes[i];
      if floor.Some? {
        if value.None? {
          return Some(NoIndex(axis));
        }
        if value.value < floor.value {
          return Some(BelowFloor(axis));
        }
      }
      i := i + 1;
    }
    return None;
  }

  method ScreenModel(q: Query, model: CatalogModel) returns (why: Option<Reason>)
    ensures why == Screen(q, model)
  {
    var lane := q.lane;
    if model.IsFreeTier() {
      return Some(FreeTier);
    }
    if model.IsBatchTier() {
      return Some(BatchTier);
    }
    if model.IsRouterPseudoModel() {
      return Some(RouterPseudoModel);
    }
    if model.IsPreview() && !lane.allowPreview {
      return Some(Preview);
    }
    if model.id in q.benched {
      return Some(Benched);
    }
    var missing := Missing(lane, model);
    if missing != [] {
      return Some(MissingParameters(missing));
    }
    if lane.minContextTokens != 0 && model.contextLength < lane.minContextTokens {
      return Some(ContextTooShort);
    }
    if model.expires.Some? && model.expires.value <= q.now {
      return Some(ExpiredModel);
    }
    if lane.maxPromptPricePerMillion.Some? && model.promptPrice > lane.maxPromptPricePerMillion.value / 1000000.0 {
      return Some(PromptPriceAboveCeiling);
    }
    why := CheckFloors(lane, model);
    if why.None? && !(Cost(lane, model) > 0.0) {
      return Some(NonPositiveCost);
    }
  }

  /** One turn of the catalog loop: the model joins one list or the other. */
  method JudgeModel(q: Query, model: CatalogModel) returns (cleared: seq<Candidate>, rejected: seq<Rejection>)
    ensures cleared == ClearOne(q)(model) && rejected == RejectOne(q)(model)
  {
    var why := ScreenModel(q, model);
    if why.Some? {
      return [], [Rejection(model.id, why.value)];
    }
    return [CandidateFor(q, model)], [];
  }

  method ScreenCatalog(q: Query, catalog: seq<CatalogModel>) returns (candidates: seq<Candidate>, rejections: seq<Rejection>)
    ensures candidates == Cleared(q, catalog) && rejections == Screened(q, catalog)
  {
    candidates, rejections := [], [];
    var i := 0;
    while i < |catalog|
      invariant 0 <= i <= |catalog|
      invariant candidates == Cleared(q, catalog[..i]) && rejections == Screened(q, catalog[..i])
    {
      FlatMapNext(ClearOne(q), catalog, i);
      FlatMapNext(RejectOne(q), catalog, i);
      var cleared, rejected := JudgeModel(q, catalog[i]);
      candidates, rejections := candidates + cleared, rejections + rejected;
      i := i + 1;
    }
    assert catalog[..i] == catalog;
  }

  method ApplyGate(tier: Tier, candidates: seq<Candidate>) returns (gated: seq<Candidate>, rejected: seq<Rejection>)
    ensures gated == Gated(tier, candidates) && rejected == GateRejections(Losers(tier, candidates))
  {
    var best := BestMargin(candidates);
    rejected := [];
    if (tier.Auto? || tier.Fast?) && best > 0.0 {
      var threshold := MARGIN_SHARE_GATE * best;
      gated := Filter((c: Candidate) => c.margin >= threshold, candidates);
      FilterCongruent((c: Candidate) => c.margin >= threshold, c => Passes(tier, best, c), candidates);
      rejected := RejectLosers(Ids(gated), candidates);
    } else {
      gated := candidates;
      FilterAll(c => Passes(tier, best, c), candidates);
      FilterNone((c: Candidate) => c.Id() !in Ids(candidates), candidates);
      FilterCongruent((c: Candidate) => c.Id() !in Ids(candidates), (c: Candidate) => c.Id() !in Ids(gated), candidates);
    }
  }

  method RejectLosers(kept: set<string>, candidates: seq<Candidate>) returns (rejected: seq<Rejection>)
    ensures rejected == GateRejections(Filter((c: Candidate) => c.Id() !in kept, candidates))
  {
    ghost var p := (c: Candidate) => c.Id() !in kept;
    rejected := [];
    var i := 0;
    while i < |candidates|
      invariant 0 <= i <= |candidates|
      invariant rejected == GateRejections(Filter(p, candidates[..i]))
    {
      FilterNext(p, candidates, i);
      if candidates[i].Id() !in kept {
        FlatMapConcat(GateRejection(), Filter(p, candidates[..i]), [candidates[i]]);
        assert GateRejections([candidates[i]]) == [Rejection(candidates[i].Id(), BelowMarginShare)] + [];
        rejected := rejected + [Rejection(candidates[i].Id(), BelowMarginShare)];
      }
      i := i + 1;
    }
    assert candidates[..i] == candidates;
  }

  method ResolveLane(q: Query, catalog: seq<CatalogModel>) returns (r: Resolution)
    ensures r == Resolve(q, catalog)
  {
    var candidates, rejections := ScreenCatalog(q, catalog);
    var gated, losers := ApplyGate(q.tier, candidates);
    var objective := if q.tier.Fast? && !(exists c :: c in gated && c.observed.Some?) then NoLatencyObserved else Tiered(q.tier);
    var ordered := Sorted(Before(q.tier), gated);
    SortPermutes(Before(q.tier), gated);
    r := Resolution(ordered[..ShortlistLength(q.lane, |ordered|)], rejections + losers, q.tier, objective,
                    |candidates|, |ordered|, BestMargin(candidates));
  }

  // ----- independence of the catalog's order -----

  lemma {:induction false} ClearedMembers(q: Query, catalog: seq<CatalogModel>)
    ensures forall c :: c in Cleared(q, catalog) <==> c.model in catalog && Screen(q, c.model).None? && c == CandidateFor(q, c.model)
  {
    if catalog != [] {
      ClearedMembers(q, catalog[1..]);
      assert catalog == [catalog[0]] + catalog[1..];
    }
  }

  lemma BestMarginPermutes(s: seq<Candidate>, t: seq<Candidate>)
    requires multiset(s) == multiset(t)
    ensures BestMargin(s) == BestMargin(t)
  {
    SameElements(s, t);
  }

  lemma DistinctIdsDetermine(catalog: seq<CatalogModel>, a: CatalogModel, b: CatalogModel)
    requires DistinctIds(catalog) && a in catalog && b in catalog && a.id == b.id
    ensures a == b
  {
  }

  lemma CandidatesComparable(q: Query, catalog: seq<CatalogModel>, cs: seq<Candidate>)
    requires DistinctIds(catalog) && forall c :: c in cs ==> c in Cleared(q, catalog)
    ensures TotalOn(Before(q.tier), cs)
  {
    ClearedMembers(q, catalog);
    forall x, y | x in cs && y in cs && x != y ensures Before(q.tier)(x, y) || Before(q.tier)(y, x) {
      if x.Id() == y.Id() {
        DistinctIdsDetermine(catalog, x.model, y.model);
      } else {
        BeforeIsTotal(q.tier, x, y);
      }
    }
  }

  /** Reordering a catalog with distinct ids changes nothing but the order in
      which rejections are listed. */
  lemma CatalogOrderIrrelevant(q: Query, s: seq<CatalogModel>, t: seq<CatalogModel>)
    requires DistinctIds(s) && multiset(s) == multiset(t)
    ensures Ranked(q, s) == Ranked(q, t)
    ensures var r, r' := Resolve(q, s), Resolve(q, t);
            && r.candidates == r'.candidates && r.objective == r'.objective
            && r.clearedFloors == r'.clearedFloors && r.survivedGate == r'.survivedGate
            && r.bestAvailableMargin == r'.bestAvailableMargin
            && multiset(r.rejections) == multiset(r'.rejections)
  {
    var cs, ct := Cleared(q, s), Cleared(q, t);
    FlatMapPermutes(ClearOne(q), s, t);
    FlatMapPermutes(RejectOne(q), s, t);
    BestMarginPermutes(cs, ct);
    var best := BestMargin(cs);
    FilterPermutes(c => Passes(q.tier, best, c), cs, ct);
    var gs, gt := Gated(q.tier, cs), Gated(q.tier, ct);
    SameElements(gs, gt);
    SameElements(cs, ct);
    CandidatesComparable(q, s, gs);
    BeforeIsWeakOrder(q.tier);
    SortPermutationInvariant(Before(q.tier), gs, gt);
    LosersPermute(q.tier, cs, ct);
  }

  lemma LosersPermute(tier: Tier, cs: seq<Candidate>, ct: seq<Candidate>)
    requires multiset(cs) == multiset(ct)
    requires multiset(Gated(tier, cs)) == multiset(Gated(tier, ct))
    ensures multiset(GateRejections(Losers(tier, cs))) == multiset(GateRejections(Losers(tier, ct)))
  {
    SameElements(Gated(tier, cs), Gated(tier, ct));
    assert Ids(Gated(tier, cs)) == Ids(Gated(tier, ct));
    var kept := Ids(Gated(tier, cs));
    FilterPermutes((c: Candidate) => c.Id() !in kept, cs, ct);
    FlatMapPermutes(GateRejection(), Losers(tier, cs), Losers(tier, ct));
  }

  // ----- nothing lost, nothing invented -----

  function CatalogId(): CatalogModel -> seq<string> {
    (m: CatalogModel) => [m.id]
  }

  function CandidateId(): Candidate -> seq<string> {
    (c: Candidate) => [c.Id()]
  }

  function RejectedId(): Rejection -> seq<string> {
    (r: Rejection) => [r.modelId]
  }

  lemma {:induction false} ScreeningPartitions(q: Query, catalog: seq<CatalogModel>)
    ensures multiset(FlatMap(CatalogId(), catalog))
         == multiset(FlatMap(CandidateId(), Cleared(q, catalog))) + multiset(FlatMap(RejectedId(), Screened(q, catalog)))
  {
    if catalog != [] {
      ScreeningPartitions(q, catalog[1..]);
      var c, r := ClearOne(q)(catalog[0]), RejectOne(q)(catalog[0]);
      FlatMapConcat(CandidateId(), c, Cleared(q, catalog[1..]));
      FlatMapConcat(RejectedId(), r, Screened(q, catalog[1..]));
      OneVerdictEach(q, catalog[0]);
    }
  }

  lemma OneVerdictEach(q: Query, m: CatalogModel)
    ensures multiset([m.id])
         == multiset(FlatMap(CandidateId(), ClearOne(q)(m))) + multiset(FlatMap(RejectedId(), RejectOne(q)(m)))
  {
    var c, r := ClearOne(q)(m), RejectOne(q)(m);
    if c == [] {
      assert r[1..] == [];
    } else {
      assert c[1..] == [];
    }
  }

  lemma LosersFailTheGate(q: Query, catalog: seq<CatalogModel>)
    requires DistinctIds(catalog)
    ensures var cs := Cleared(q, catalog);
            Losers(q.tier, cs) == Filter(c => !Passes(q.tier, BestMargin(cs), c), cs)
  {
    var cs := Cleared(q, catalog);
    var best := BestMargin(cs);
    var kept := Ids(Gated(q.tier, cs));
    ClearedMembers(q, catalog);
    forall c | c in cs ensures c.Id() !in kept <==> !Passes(q.tier, best, c) {
      if c.Id() in kept {
        var g :| g in Gated(q.tier, cs) && g.Id() == c.Id();
        DistinctIdsDetermine(catalog, g.model, c.model);
      } else {
        assert c !in Gated(q.tier, cs);
      }
    }
    FilterCongruent((c: Candidate) => c.Id() !in kept, c => !Passes(q.tier, best, c), cs);
  }

  lemma {:induction false} GateRejectionIds(losers: seq<Candidate>)
    ensures FlatMap(RejectedId(), GateRejections(losers)) == FlatMap(CandidateId(), losers)
  {
    if losers != [] {
      GateRejectionIds(losers[1..]);
      var r := Rejection(losers[0].Id(), BelowMarginShare);
      assert GateRejections(losers) == [r] + GateRejections(losers[1..]);
      FlatMapConcat(RejectedId(), [r], GateRejections(losers[1..]));
    }
  }

  lemma GatePartitions(q: Query, catalog: seq<CatalogModel>)
    requires DistinctIds(catalog)
    ensures multiset(FlatMap(CandidateId(), Cleared(q, catalog)))
         == multiset(FlatMap(CandidateId(), Ranked(q, catalog)))
          + multiset(FlatMap(CandidateId(), Losers(q.tier, Cleared(q, catalog))))
  {
    var cs := Cleared(q, catalog);
    var best := BestMargin(cs);
    var gated, losers := Gated(q.tier, cs), Losers(q.tier, cs);
    LosersFailTheGate(q, catalog);
    FilterSplits(c => Passes(q.tier, best, c), c => !Passes(q.tier, best, c), cs);
    SortPermutes(Before(q.tier), gated);
    assert multiset(Ranked(q, catalog) + losers) == multiset(cs);
    FlatMapPermutes(CandidateId(), Ranked(q, catalog) + losers, cs);
    FlatMapConcat(CandidateId(), Ranked(q, catalog), losers);
  }

  /** Every catalog entry is ranked or rejected, once, and nothing else is. */
  lemma ResolutionPartitionsCatalog(q: Query, catalog: seq<CatalogModel>)
    requires DistinctIds(catalog)
    ensures multiset(FlatMap(CatalogId(), catalog))
         == multiset(FlatMap(CandidateId(), Ranked(q, catalog)))
          + multiset(FlatMap(RejectedId(), Resolve(q, catalog).rejections))
  {
    var cs := Cleared(q, catalog);
    ScreeningPartitions(q, catalog);
    GatePartitions(q, catalog);
    GateRejectionIds(Losers(q.tier, cs));
    FlatMapConcat(RejectedId(), Screened(q, catalog), GateRejections(Losers(q.tier, cs)));
  }

  lemma RankedIdsOnce(q: Query, catalog: seq<CatalogModel>)
    requires DistinctIds(catalog)
    ensures Once(FlatMap(CandidateId(), Ranked(q, catalog)))
  {
    ResolutionPartitionsCatalog(q, catalog);
    SingletonsAt(CatalogId(), catalog);
    OnceIffDistinct(FlatMap(CatalogId(), catalog));
    FewerOnce(FlatMap(CandidateId(), Ranked(q, catalog)), FlatMap(CatalogId(), catalog));
  }

  /** No id is shortlisted twice. */
  lemma ResolutionIdsOnce(q: Query, catalog: seq<CatalogModel>)
    requires DistinctIds(catalog)
    ensures Once(FlatMap(CandidateId(), Resolve(q, catalog).candidates))
  {
    RankedIdsOnce(q, catalog);
    PrefixOnce(CandidateId(), Ranked(q, catalog), |Resolve(q, catalog).candidates|);
  }

  /** The gate never empties a non-empty qualifying set: whatever has the best
      margin survives it, and the shortlist leads with something. */
  lemma GateKeepsTheBest(q: Query, catalog: seq<CatalogModel>)
    requires Cleared(q, catalog) != []
    ensures exists c :: c in Ranked(q, catalog) && c.margin == BestMargin(Cleared(q, catalog))
    ensures Resolve(q, catalog).candidates != []
  {
    var cs := Cleared(q, catalog);
    var best := BestMargin(cs);
    assert exists c :: c in cs && c.margin == best;
    var c :| c in cs && c.margin == best;
    assert c in Gated(q.tier, cs);
    SortPermutes(Before(q.tier), Gated(q.tier, cs));
    assert c in Ranked(q, catalog);
  }

  /** What a lane requires of a model, said without reference to the resolver. */
  ghost predicate Qualifies(q: Query, m: CatalogModel) {
    && !m.IsFreeTier() && !m.IsBatchTier() && !m.IsRouterPseudoModel()
    && (m.IsPreview() ==> q.lane.allowPreview)
    && m.id !in q.benched
    && (forall p :: p in q.lane.must ==> p in m.supported)
    && (q.lane.minContextTokens > 0 ==> m.contextLength >= q.lane.minContextTokens)
    && (m.expires.Some? ==> m.expires.value > q.now)
    && (q.lane.maxPromptPricePerMillion.Some? ==> m.promptPrice * 1000000.0 <= q.lane.maxPromptPricePerMillion.value)
    && MeetsFloor(q.lane.minIntelligence, m.intelligence)
    && MeetsFloor(q.lane.minCoding, m.coding)
    && MeetsFloor(q.lane.minAgentic, m.agentic)
    && Cost(q.lane, m) > 0.0
  }

  ghost predicate MeetsFloor(floor: Option<real>, value: Option<real>) {
    floor.Some? ==> value.Some? && value.value >= floor.value
  }

  /** Screening admits exactly the models that qualify. */
  lemma ScreenIffQualifies(q: Query, m: CatalogModel)
    requires q.lane.minContextTokens >= 0
    ensures Screen(q, m).None? <==> Qualifies(q, m)
  {
    var missing := Missing(q.lane, m);
    assert missing == [] <==> (forall p :: p in q.lane.must ==> p in m.supported) by {
      if missing != [] {
        assert missing[0] in missing;
      }
    }
  }

  /** A shortlist is ranked, made of qualifying models only, and under `auto` and
      `fast` of nothing below the margin share: a retry stays in the lane. */
  lemma ShortlistStaysInLane(q: Query, catalog: seq<CatalogModel>)
    requires q.lane.minContextTokens >= 0
    ensures var r := Resolve(q, catalog);
            && Ordered(Before(q.tier), r.candidates)
            && |r.candidates| <= (if q.lane.shortlistSize > 1 then q.lane.shortlistSize else 1)
            && (forall c :: c in r.candidates ==>
                  c.model in catalog && Qualifies(q, c.model) && Passes(q.tier, r.bestAvailableMargin, c))
  {
    var cs := Cleared(q, catalog);
    BeforeIsWeakOrder(q.tier);
    SortOrders(Before(q.tier), Gated(q.tier, cs));
    SortPermutes(Before(q.tier), Gated(q.tier, cs));
    ClearedMembers(q, catalog);
    var r := Resolve(q, catalog);
    forall c | c in r.candidates
      ensures c.model in catalog && Qualifies(q, c.model) && Passes(q.tier, r.bestAvailableMargin, c)
    {
      assert c in Ranked(q, catalog);
      assert c in cs;
      ScreenIffQualifies(q, c.model);
    }
  }

  // ----- fail sideways -----

  function Bench(q: Query, failed: set<string>): Query {
    q.(benched := q.benched + failed)
  }

  function Unbenched(failed: set<string>): Candidate -> bool {
    (c: Candidate) => c.Id() !in failed
  }

  lemma BenchOne(q: Query, failed: set<string>, m: CatalogModel)
    ensures ClearOne(Bench(q, failed))(m) == Filter(Unbenched(failed), ClearOne(q)(m))
  {
    assert Screen(Bench(q, failed), m).None? <==> Screen(q, m).None? && m.id !in failed;
    var c := ClearOne(q)(m);
    if c != [] {
      assert c[1..] == [];
    }
  }

  lemma BenchFilters(q: Query, failed: set<string>, catalog: seq<CatalogModel>)
    ensures Cleared(Bench(q, failed), catalog) == Filter(Unbenched(failed), Cleared(q, catalog))
  {
    forall m | m in catalog ensures ClearOne(Bench(q, failed))(m) == Filter(Unbenched(failed), ClearOne(q)(m)) {
      BenchOne(q, failed, m);
    }
    FlatMapFilter(ClearOne(q), ClearOne(Bench(q, failed)), Unbenched(failed), catalog);
  }

  /** Under `best` and `cheap`, benching leaves the order of the rest alone. */
  lemma FailSidewaysUngated(q: Query, failed: set<string>, catalog: seq<CatalogModel>)
    requires q.tier.Best? || q.tier.Cheap?
    ensures Ranked(Bench(q, failed), catalog) == Filter(Unbenched(failed), Ranked(q, catalog))
  {
    var cs, cs' := Cleared(q, catalog), Cleared(Bench(q, failed), catalog);
    BenchFilters(q, failed, catalog);
    FilterAll(c => Passes(q.tier, BestMargin(cs), c), cs);
    FilterAll(c => Passes(q.tier, BestMargin(cs'), c), cs');
    BeforeIsWeakOrder(q.tier);
    SortFilter(Before(q.tier), Unbenched(failed), cs);
  }

  /** Under any tier, the models that survived the gate before and are not
      benched all survive it still, in the same relative order. */
  lemma FailSideways(q: Query, failed: set<string>, catalog: seq<CatalogModel>)
    ensures Filter(c => c in Ranked(q, catalog), Ranked(Bench(q, failed), catalog))
         == Filter(Unbenched(failed), Ranked(q, catalog))
  {
    var lt := Before(q.tier);
    var cs, cs' := Cleared(q, catalog), Cleared(Bench(q, failed), catalog);
    var best, best' := BestMargin(cs), BestMargin(cs');
    var p, p' := (c: Candidate) => Passes(q.tier, best, c), (c: Candidate) => Passes(q.tier, best', c);
    var live, was := Unbenched(failed), (c: Candidate) => c in Ranked(q, catalog);
    BenchFilters(q, failed, catalog);
    BestMarginOfSubset(cs, cs');
    BeforeIsWeakOrder(q.tier);
    SortPermutes(lt, Filter(p, cs));
    SortFilter(lt, live, Filter(p, cs));
    SortFilter(lt, was, Filter(p', cs'));
    LowerBarAdmitsMore(q.tier, best', best, cs);
    NestedFilters(p, p', live, was, cs);
  }

  lemma BestMarginOfSubset(cs: seq<Candidate>, some: seq<Candidate>)
    requires forall c :: c in some ==> c in cs
    ensures BestMargin(some) <= BestMargin(cs) || BestMargin(some) == 0.0
  {
    if some != [] {
      var m := BestMargin(some);
      assert exists c :: c in some && c.margin == m;
    }
  }

  lemma LowerBarAdmitsMore(tier: Tier, low: real, high: real, cs: seq<Candidate>)
    requires low <= high || low == 0.0
    ensures forall c :: c in cs && Passes(tier, high, c) ==> Passes(tier, low, c)
  {
    assert low > 0.0 ==> MARGIN_SHARE_GATE * low <= MARGIN_SHARE_GATE * high;
  }

  /** The order is exactly the old one with the benched models filtered out
      unless the benching lowered the bar for somebody: a model the old gate
      stopped that the new one lets through. */
  lemma FailSidewaysExactIff(q: Query, failed: set<string>, catalog: seq<CatalogModel>)
    ensures Ranked(Bench(q, failed), catalog) == Filter(Unbenched(failed), Ranked(q, catalog))
       <==> forall c :: c in Cleared(q, catalog) && c.Id() !in failed
                        && Passes(q.tier, BestMargin(Cleared(Bench(q, failed), catalog)), c)
                        ==> Passes(q.tier, BestMargin(Cleared(q, catalog)), c)
  {
    var lt := Before(q.tier);
    var cs, cs' := Cleared(q, catalog), Cleared(Bench(q, failed), catalog);
    var best, best' := BestMargin(cs), BestMargin(cs');
    BenchFilters(q, failed, catalog);
    SortPermutes(lt, Gated(q.tier, cs));
    SortPermutes(lt, Gated(q.tier, cs'));
    var now, old' := Ranked(Bench(q, failed), catalog), Filter(Unbenched(failed), Ranked(q, catalog));
    if forall c :: c in cs && c.Id() !in failed && Passes(q.tier, best', c) ==> Passes(q.tier, best, c) {
      FailSideways(q, failed, catalog);
      FilterAll(c => c in Ranked(q, catalog), now);
    } else {
      var c :| c in cs && c.Id() !in failed && Passes(q.tier, best', c) && !Passes(q.tier, best, c);
      assert c in now && c !in old';
    }
  }
}
