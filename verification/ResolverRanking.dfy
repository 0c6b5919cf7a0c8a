/** What a shortlist is, in the numbers a reader can check: what a turn costs, what a
    margin is, who passes the gate, in which order each tier ranks, and that nobody
    better was left off. */
module ResolverRanking {
  import opened Text
  import opened StableSort
  import opened ModelResolver

  /** The order a tier asks for: `x` may stand before `y`. */
  ghost predicate MayLead(tier: Tier, x: Candidate, y: Candidate) {
    match tier
    case Best => x.margin > y.margin || (x.margin == y.margin && CheaperOrFirst(x, y))
    case Cheap => CheapFirst(x, y)
    case Auto => x.margin * y.cost > y.margin * x.cost || (x.margin * y.cost == y.margin * x.cost && CheaperOrFirst(x, y))
    case Fast =>
      if x.observed.Some? && y.observed.Some? then
        var slow, slower := x.observed.value * x.cost, y.observed.value * y.cost;
        slow < slower || (slow == slower && CheapFirst(x, y))
      else x.observed.Some? || (y.observed.None? && CheapFirst(x, y))
  }

  ghost predicate CheapFirst(x: Candidate, y: Candidate) {
    x.cost < y.cost || (x.cost == y.cost && (x.margin > y.margin || (x.margin == y.margin && IdFirst(x, y))))
  }

  ghost predicate CheaperOrFirst(x: Candidate, y: Candidate) {
    x.cost < y.cost || (x.cost == y.cost && IdFirst(x, y))
  }

  ghost predicate IdFirst(x: Candidate, y: Candidate) {
    x.Id() == y.Id() || Less(x.Id(), y.Id())
  }

  // ----- the order -----

  lemma RatiosCompare(a: real, b: real, c: real, d: real)
    requires b > 0.0 && d > 0.0
    ensures a / b > c / d <==> a * d > c * b
    ensures a / b == c / d <==> a * d == c * b
  {
    var x, y := a / b, c / d;
    assert x * b == a && y * d == c;
    assert a * d == x * (b * d) && c * b == y * (b * d);
    assert b * d > 0.0;
    if x > y {
      assert (x - y) * (b * d) > 0.0;
    } else if x < y {
      assert (y - x) * (b * d) > 0.0;
    }
  }

  lemma NotBeforeLeads(tier: Tier, x: Candidate, y: Candidate)
    requires x.cost > 0.0 && y.cost > 0.0 && !Before(tier)(y, x)
    ensures MayLead(tier, x, y)
  {
    LessTotal(x.Id(), y.Id());
    match tier {
      case Auto => RatiosCompare(x.margin, x.cost, y.margin, y.cost);
      case _ =>
    }
  }

  /** The shortlist is in the order its tier asks for: `auto` by margin per dollar,
      `best` by margin, `cheap` by cost, `fast` by measured seconds times cost, and
      unmeasured models behind the measured ones. */
  lemma ShortlistInTierOrder(q: Query, catalog: seq<CatalogModel>)
    ensures var r := Resolve(q, catalog).candidates;
            forall i, j :: 0 <= i < j < |r| ==> MayLead(q.tier, r[i], r[j])
  {
    var r, ranked := Resolve(q, catalog).candidates, Ranked(q, catalog);
    RankedInTierOrder(q, catalog);
    forall i, j | 0 <= i < j < |r| ensures MayLead(q.tier, r[i], r[j]) {
      assert r[i] == ranked[i] && r[j] == ranked[j];
    }
  }

  lemma RankedInTierOrder(q: Query, catalog: seq<CatalogModel>)
    ensures var ranked := Ranked(q, catalog);
            forall i, j :: 0 <= i < j < |ranked| ==> MayLead(q.tier, ranked[i], ranked[j])
  {
    var ranked := Ranked(q, catalog);
    BeforeIsWeakOrder(q.tier);
    SortOrders(Before(q.tier), Gated(q.tier, Cleared(q, catalog)));
    RankedCostSomething(q, catalog);
    forall i, j | 0 <= i < j < |ranked| ensures MayLead(q.tier, ranked[i], ranked[j]) {
      assert ranked[i] in ranked && ranked[j] in ranked;
      NotBeforeLeads(q.tier, ranked[i], ranked[j]);
    }
  }

  lemma RankedCostSomething(q: Query, catalog: seq<CatalogModel>)
    ensures forall c :: c in Ranked(q, catalog) ==> c in Cleared(q, catalog) && c.cost > 0.0
  {
    SortPermutes(Before(q.tier), Gated(q.tier, Cleared(q, catalog)));
    ClearedMembers(q, catalog);
    forall c | c in Cleared(q, catalog) ensures c.cost > 0.0 {
      ClearedCosts(q, c.model);
    }
  }

  lemma ClearedCosts(q: Query, m: CatalogModel)
    requires Screen(q, m).None?
    ensures Cost(q.lane, m) > 0.0
  {
  }

  // ----- the numbers -----

  /** What one declared turn costs: input and output at their prices, and the cached
      part of the input at the cache's price, when there is one. */
  ghost predicate CostOfTurn(lane: Lane, m: CatalogModel, cost: real) {
    var sent := if lane.expectedCachedIn > lane.expectedIn then lane.expectedCachedIn else lane.expectedIn;
    && (m.cacheReadPrice.None? || lane.expectedCachedIn == 0 ==>
          cost == sent as real * m.promptPrice + lane.expectedOut as real * m.completionPrice)
    && (m.cacheReadPrice.Some? ==>
          cost == sent as real * m.promptPrice + lane.expectedOut as real * m.completionPrice
                  - lane.expectedCachedIn as real * (m.promptPrice - m.cacheReadPrice.value))
  }

  function Declared(floor: Option<real>): real {
    if floor.Some? then floor.value else 0.0
  }

  function Published(floor: Option<real>, value: Option<real>): real {
    if floor.Some? && value.Some? then value.value else 0.0
  }

  predicate NoFloors(lane: Lane) {
    lane.minIntelligence.None? && lane.minCoding.None? && lane.minAgentic.None?
  }

  /** The published indices on the axes the lane puts a floor under, less the floors;
      with no floor at all the intelligence, if it is positive. */
  ghost predicate MarginOver(lane: Lane, m: CatalogModel, margin: real) {
    if NoFloors(lane) then
      margin >= 0.0 && (if m.intelligence.Some? && m.intelligence.value > 0.0 then margin == m.intelligence.value else margin == 0.0)
    else
      margin + Declared(lane.minIntelligence) + Declared(lane.minCoding) + Declared(lane.minAgentic)
      == Published(lane.minIntelligence, m.intelligence) + Published(lane.minCoding, m.coding) + Published(lane.minAgentic, m.agentic)
  }

  /** A candidate carries its model's own numbers. */
  ghost predicate Weighed(q: Query, c: Candidate) {
    && CostOfTurn(q.lane, c.model, c.cost) && MarginOver(q.lane, c.model, c.margin)
    && (c.observed.Some? <==> c.Id() in q.latencies) && (c.observed.Some? ==> c.observed.value == q.latencies[c.Id()])
  }

  lemma CostIsCost(lane: Lane, m: CatalogModel)
    ensures CostOfTurn(lane, m, Cost(lane, m))
  {
    var paid := if lane.expectedIn > lane.expectedCachedIn then lane.expectedIn - lane.expectedCachedIn else 0;
    var cached := lane.expectedCachedIn;
    assert (paid + cached) as real * m.promptPrice == paid as real * m.promptPrice + cached as real * m.promptPrice;
    if m.cacheReadPrice.Some? {
      var read := m.cacheReadPrice.value;
      assert cached as real * (m.promptPrice - read) == cached as real * m.promptPrice - cached as real * read;
    }
  }

  lemma QualifiedIsWeighed(q: Query, m: CatalogModel)
    requires Qualifies(q, m)
    ensures Weighed(q, CandidateFor(q, m))
  {
    CostIsCost(q.lane, m);
  }

  // ----- the gate -----

  /** A share of 35 percent of every other qualifying margin, under `auto` and `fast`. */
  ghost predicate NotByAHair(q: Query, catalog: seq<CatalogModel>, c: Candidate) {
    q.tier.Auto? || q.tier.Fast? ==>
      forall m :: m in catalog && Qualifies(q, m) ==> 100.0 * c.margin >= 35.0 * CandidateFor(q, m).margin
  }

  lemma MarginNonNegative(q: Query, m: CatalogModel)
    requires Qualifies(q, m)
    ensures CandidateFor(q, m).margin >= 0.0
  {
  }

  lemma GateIsShare(q: Query, catalog: seq<CatalogModel>, c: Candidate)
    requires q.lane.minContextTokens >= 0 && c in Cleared(q, catalog)
    ensures Passes(q.tier, BestMargin(Cleared(q, catalog)), c) <==> NotByAHair(q, catalog, c)
  {
    var cs := Cleared(q, catalog);
    var best := BestMargin(cs);
    ClearedMembers(q, catalog);
    ScreenIffQualifies(q, c.model);
    MarginNonNegative(q, c.model);
    assert exists b :: b in cs && b.margin == best;
    var b :| b in cs && b.margin == best;
    ScreenIffQualifies(q, b.model);
    forall m | m in catalog && Qualifies(q, m) ensures CandidateFor(q, m).margin <= best {
      ScreenIffQualifies(q, m);
      assert CandidateFor(q, m) in cs;
    }
    assert CandidateFor(q, b.model).margin == best;
  }

  // ----- nobody better was left off -----

  lemma RankedIffPasses(q: Query, catalog: seq<CatalogModel>, m: CatalogModel)
    requires q.lane.minContextTokens >= 0 && m in catalog && Qualifies(q, m)
    ensures CandidateFor(q, m) in Ranked(q, catalog) <==> NotByAHair(q, catalog, CandidateFor(q, m))
  {
    ClearedMembers(q, catalog);
    ScreenIffQualifies(q, m);
    GateIsShare(q, catalog, CandidateFor(q, m));
    SortPermutes(Before(q.tier), Gated(q.tier, Cleared(q, catalog)));
  }

  lemma PrefixMember(s: seq<Candidate>, n: nat, k: nat)
    requires n <= |s| && k < |s|
    ensures k < n ==> s[k] in s[..n]
  {
    if k < n {
      assert s[..n][k] == s[k];
    }
  }

  /** A shortlist holds qualifying models of the catalog with their own numbers, fills
      up to the lane's size, and nothing left off it was entitled to a place: whoever
      qualifies, passes the gate and is not listed stands behind everybody listed. */
  lemma ShortlistIsTheTop(q: Query, catalog: seq<CatalogModel>, m: CatalogModel)
    requires q.lane.minContextTokens >= 0 && m in catalog && Qualifies(q, m)
    ensures var c, r := CandidateFor(q, m), Resolve(q, catalog).candidates;
            && Weighed(q, c) && (c in r ==> NotByAHair(q, catalog, c))
            && (NotByAHair(q, catalog, c) && c !in r ==>
                  && |r| == (if q.lane.shortlistSize > 1 then q.lane.shortlistSize else 1)
                  && forall x :: x in r ==> MayLead(q.tier, x, c))
  {
    var c, r, ranked := CandidateFor(q, m), Resolve(q, catalog).candidates, Ranked(q, catalog);
    QualifiedIsWeighed(q, m);
    RankedIffPasses(q, catalog, m);
    if NotByAHair(q, catalog, c) && c !in r {
      var k :| 0 <= k < |ranked| && ranked[k] == c;
      PrefixMember(ranked, |r|, k);
      RankedInTierOrder(q, catalog);
      forall x | x in r ensures MayLead(q.tier, x, c) {
        var i :| 0 <= i < |r| && r[i] == x;
        assert ranked[i] == x;
      }
    }
  }

  /** Everybody listed is such a candidate. */
  lemma ShortlistMembers(q: Query, catalog: seq<CatalogModel>, c: Candidate)
    requires q.lane.minContextTokens >= 0 && c in Resolve(q, catalog).candidates
    ensures c.model in catalog && Qualifies(q, c.model) && c == CandidateFor(q, c.model) && Weighed(q, c)
    ensures NotByAHair(q, catalog, c)
  {
    ShortlistStaysInLane(q, catalog);
    SortPermutes(Before(q.tier), Gated(q.tier, Cleared(q, catalog)));
    ClearedMembers(q, catalog);
    assert c in Ranked(q, catalog) && c in Cleared(q, catalog);
    QualifiedIsWeighed(q, c.model);
    GateIsShare(q, catalog, c);
  }

  // ----- why the others lost -----

  ghost predicate Lacks(floor: Option<real>, value: Option<real>) {
    floor.Some? && value.None?
  }

  ghost predicate Under(floor: Option<real>, value: Option<real>) {
    floor.Some? && value.Some? && value.value < floor.value
  }

  function FloorOf(lane: Lane, axis: Axis): Option<real> {
    match axis
    case Intelligence => lane.minIntelligence
    case Coding => lane.minCoding
    case Agentic => lane.minAgentic
  }

  function IndexOn(m: CatalogModel, axis: Axis): Option<real> {
    match axis
    case Intelligence => m.intelligence
    case Coding => m.coding
    case Agentic => m.agentic
  }

  /** What each reason says of the model. */
  ghost predicate TrueOf(q: Query, catalog: seq<CatalogModel>, m: CatalogModel, why: Reason) {
    match why
    case FreeTier => m.IsFreeTier()
    case BatchTier => m.IsBatchTier()
    case RouterPseudoModel => m.IsRouterPseudoModel()
    case Preview => m.IsPreview() && !q.lane.allowPreview
    case Benched => m.id in q.benched
    case MissingParameters(names) => names != [] && forall p :: p in names <==> p in q.lane.must && p !in m.supported
    case ContextTooShort => m.contextLength < q.lane.minContextTokens
    case ExpiredModel => m.expires.Some? && m.expires.value <= q.now
    case PromptPriceAboveCeiling =>
      q.lane.maxPromptPricePerMillion.Some? && m.promptPrice * 1000000.0 > q.lane.maxPromptPricePerMillion.value
    case NoIndex(axis) => Lacks(FloorOf(q.lane, axis), IndexOn(m, axis))
    case BelowFloor(axis) => Under(FloorOf(q.lane, axis), IndexOn(m, axis))
    case NonPositiveCost => exists cost :: CostOfTurn(q.lane, m, cost) && cost <= 0.0
    case BelowMarginShare => Qualifies(q, m) && !NotByAHair(q, catalog, CandidateFor(q, m))
  }

  lemma ScreenedReasonIsTrue(q: Query, catalog: seq<CatalogModel>, m: CatalogModel)
    requires Screen(q, m).Some?
    ensures TrueOf(q, catalog, m, Screen(q, m).value)
  {
    if Screen(q, m).value.NonPositiveCost? {
      CostIsCost(q.lane, m);
    }
  }

  lemma {:induction false} ScreenedMembers(q: Query, catalog: seq<CatalogModel>)
    ensures forall r :: r in Screened(q, catalog) ==> exists m :: m in catalog && m.id == r.modelId && Screen(q, m) == Some(r.reason)
  {
    if catalog != [] {
      ScreenedMembers(q, catalog[1..]);
      assert catalog == [catalog[0]] + catalog[1..];
      var first := RejectOne(q)(catalog[0]);
      assert forall r :: r in Screened(q, catalog) ==> r in first || r in Screened(q, catalog[1..]);
      assert forall r :: r in first ==> catalog[0].id == r.modelId && Screen(q, catalog[0]) == Some(r.reason);
    }
  }

  lemma {:induction false} GateRejectionMembers(losers: seq<Candidate>)
    ensures forall r :: r in GateRejections(losers) ==> exists c :: c in losers && r == Rejection(c.Id(), BelowMarginShare)
  {
    if losers != [] {
      GateRejectionMembers(losers[1..]);
      var c := losers[0];
      assert losers == [c] + losers[1..] && c in losers;
      assert GateRejections(losers) == [Rejection(c.Id(), BelowMarginShare)] + GateRejections(losers[1..]);
    }
  }

  lemma GatedOutIsTrue(q: Query, catalog: seq<CatalogModel>, r: Rejection)
    requires q.lane.minContextTokens >= 0 && DistinctIds(catalog) && r in GateRejections(Losers(q.tier, Cleared(q, catalog)))
    ensures exists m :: m in catalog && m.id == r.modelId && TrueOf(q, catalog, m, r.reason)
  {
    var cs := Cleared(q, catalog);
    GateRejectionMembers(Losers(q.tier, cs));
    var c :| c in Losers(q.tier, cs) && r == Rejection(c.Id(), BelowMarginShare);
    LosersFailTheGate(q, catalog);
    LoserIsByAHair(q, catalog, c);
    assert TrueOf(q, catalog, c.model, BelowMarginShare);
  }

  lemma LoserIsByAHair(q: Query, catalog: seq<CatalogModel>, c: Candidate)
    requires q.lane.minContextTokens >= 0 && c in Cleared(q, catalog) && !Passes(q.tier, BestMargin(Cleared(q, catalog)), c)
    ensures c.model in catalog && Qualifies(q, c.model) && c == CandidateFor(q, c.model) && !NotByAHair(q, catalog, c)
  {
    ClearedMembers(q, catalog);
    GateIsShare(q, catalog, c);
    ScreenIffQualifies(q, c.model);
  }

  /** Every reason given is true of a model of that id. */
  lemma EveryReasonIsTrue(q: Query, catalog: seq<CatalogModel>, r: Rejection)
    requires q.lane.minContextTokens >= 0 && DistinctIds(catalog) && r in Resolve(q, catalog).rejections
    ensures exists m :: m in catalog && m.id == r.modelId && TrueOf(q, catalog, m, r.reason)
  {
    if r in Screened(q, catalog) {
      ScreenedMembers(q, catalog);
      var m :| m in catalog && m.id == r.modelId && Screen(q, m) == Some(r.reason);
      ScreenedReasonIsTrue(q, catalog, m);
    } else {
      GatedOutIsTrue(q, catalog, r);
    }
  }
}
