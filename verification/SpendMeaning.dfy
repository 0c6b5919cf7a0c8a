/** The budget in plain numbers: what a call costs, what has been spent today and this
    month, whom the gate admits, and how far a day can overrun its cap. */
module SpendMeaning {
  import opened Text
  import opened StableSort
  import opened SpendControl
  import opened SpendRuns

  // ----- the price of a call -----

  /** The route's own price, or the configured one when the route's is not known. */
  ghost predicate PriceOf(own: real, configured: real, price: real) {
    (own != 0.0 ==> price == own) && (own == 0.0 ==> price == configured)
  }

  /** Input tokens at the input price and output tokens at the output price, both per
      million. */
  ghost predicate Amount(cfg: Config, q: Quote, input: int, output: int, cost: real) {
    exists inputPrice, outputPrice ::
      PriceOf(q.inputPrice, cfg.inputPrice, inputPrice) && PriceOf(q.outputPrice, cfg.outputPrice, outputPrice)
      && cost * 1000000.0 == input as real * inputPrice + output as real * outputPrice
  }

  lemma CostIsAmount(cfg: Config, q: Quote, input: int, output: int)
    ensures Amount(cfg, q, input, output, Cost(cfg, input, output, q))
  {
    var inputPrice, outputPrice := PriceOr(q.inputPrice, cfg.inputPrice), PriceOr(q.outputPrice, cfg.outputPrice);
    assert PriceOf(q.inputPrice, cfg.inputPrice, inputPrice) && PriceOf(q.outputPrice, cfg.outputPrice, outputPrice);
    assert CostAt(input, inputPrice) * 1000000.0 == input as real * inputPrice;
    assert CostAt(output, outputPrice) * 1000000.0 == output as real * outputPrice;
  }

  lemma EstimateIsAmount(cfg: Config, q: Quote)
    ensures AskingPrice(cfg, q, Estimate(cfg, q))
  {
    CostIsAmount(cfg, q, Max(q.input, 0), Max(q.output, 0));
  }

  // ----- what has been spent -----

  function SumOf(rows: seq<Usage>): real {
    if rows == [] then 0.0 else SumOf(rows[..|rows| - 1]) + rows[|rows| - 1].cost
  }

  function OnDay(day: nat): Usage -> bool {
    (row: Usage) => row.day == day
  }

  function InMonth(month: nat): Usage -> bool {
    (row: Usage) => row.month == month
  }

  /** What the rows of this very day cost, and those of this month. */
  function SpentToday(s: State): real {
    SumOf(Filter(OnDay(s.day), s.ledger.usage))
  }

  function SpentThisMonth(s: State): real {
    SumOf(Filter(InMonth(s.month), s.ledger.usage))
  }

  /** No row is dated later than today. */
  ghost predicate NoFuture(s: State) {
    forall i :: 0 <= i < |s.ledger.usage| ==> s.ledger.usage[i].day <= s.day && s.ledger.usage[i].month <= s.month
  }

  lemma NoFutureStep(p: Policy, cfg: Config, s: State, e: Event)
    requires NoFuture(s)
    ensures NoFuture(Apply(p, cfg, s, e))
  {
    if !e.Record? {
      UsageStands(p, cfg, s, e);
    }
  }

  lemma {:induction false} NoFutureRun(p: Policy, cfg: Config, s: State, events: seq<Event>)
    requires NoFuture(s)
    ensures NoFuture(Run(p, cfg, s, events))
    decreases events
  {
    if events != [] {
      NoFutureStep(p, cfg, s, events[0]);
      NoFutureRun(p, cfg, Apply(p, cfg, s, events[0]), events[1..]);
    }
  }

  function DatedIn(w: Window, at: nat): Usage -> bool {
    if w.Daily? then OnDay(at) else InMonth(at)
  }

  lemma {:induction false} SpentIsSum(usage: seq<Usage>, w: Window, at: nat)
    requires forall i :: 0 <= i < |usage| ==> (if w.Daily? then usage[i].day else usage[i].month) <= at
    ensures Spent(usage, w, at) == SumOf(Filter(DatedIn(w, at), usage))
  {
    if usage != [] {
      var n := |usage| - 1;
      SpentIsSum(usage[..n], w, at);
      FilterNext(DatedIn(w, at), usage, n);
      assert usage[..n + 1] == usage;
      SumNext(Filter(DatedIn(w, at), usage[..n]), usage[n]);
    }
  }

  lemma SumNext(rows: seq<Usage>, row: Usage)
    ensures SumOf(rows + [row]) == SumOf(rows) + row.cost
  {
    assert (rows + [row])[..|rows|] == rows;
  }

  /** In every reachable state the gate's two sums are what today's and this month's rows
      cost. */
  lemma UsedIsSpent(p: Policy, cfg: Config, events: seq<Event>)
    ensures var s := Run(p, cfg, EMPTY, events); Used(s, Daily) == SpentToday(s) && Used(s, Monthly) == SpentThisMonth(s)
  {
    NoFutureRun(p, cfg, EMPTY, events);
    var s := Run(p, cfg, EMPTY, events);
    SpentIsSum(s.ledger.usage, Daily, s.day);
    SpentIsSum(s.ledger.usage, Monthly, s.month);
  }

  // ----- whom the gate admits -----

  /** The calls granted so far under a session, a day or a month. */
  function GrantedTo<K(==)>(key: Grant -> K, k: K, s: State): nat {
    |Filter(With(key, k), s.ledger.grants)|
  }

  lemma {:induction false} TallyIsCount(p: Grant -> bool, grants: seq<Grant>)
    ensures Tally(p, grants) == |Filter(p, grants)|
  {
    if grants != [] {
      var n := |grants| - 1;
      TallyIsCount(p, grants[..n]);
      FilterNext(p, grants, n);
      assert grants[..n + 1] == grants;
    }
  }

  /** The price of what is asked for, with nothing below zero. */
  ghost predicate AskingPrice(cfg: Config, q: Quote, price: real) {
    Amount(cfg, q, if q.input > 0 then q.input else 0, if q.output > 0 then q.output else 0, price)
  }

  /** Room under every cap that is set: fewer calls granted than each call cap, and the
      price of what is asked for still within each dollar cap. */
  ghost predicate Admits(cfg: Config, s: State, session: string, day: nat, month: nat, q: Quote) {
    && (cfg.perSession > 0 ==> GrantedTo(BY_SESSION, session, s) < cfg.perSession)
    && (cfg.perDay > 0 ==> GrantedTo(BY_DAY, day, s) < cfg.perDay)
    && (cfg.perMonth > 0 ==> GrantedTo(BY_MONTH, month, s) < cfg.perMonth)
    && forall price :: AskingPrice(cfg, q, price) ==>
         && (cfg.dailyUsd > 0.0 ==> SpentToday(s) + price <= cfg.dailyUsd)
         && (cfg.monthlyUsd > 0.0 ==> SpentThisMonth(s) + price <= cfg.monthlyUsd)
  }

  lemma AmountIsUnique(cfg: Config, q: Quote, input: int, output: int, a: real, b: real)
    requires Amount(cfg, q, input, output, a) && Amount(cfg, q, input, output, b)
    ensures a == b
  {
  }

  lemma CountsAreGrants(p: Policy, cfg: Config, events: seq<Event>, session: string, day: nat, month: nat)
    ensures var s := Run(p, cfg, EMPTY, events);
            && Count(s.ledger.sessions, session) == GrantedTo(BY_SESSION, session, s)
            && Count(s.ledger.days, day) == GrantedTo(BY_DAY, day, s)
            && Count(s.ledger.months, month) == GrantedTo(BY_MONTH, month, s)
  {
    CountersConserved(p, cfg, events);
    var s := Run(p, cfg, EMPTY, events);
    TallyIsCount(With(BY_SESSION, session), s.ledger.grants);
    TallyIsCount(With(BY_DAY, day), s.ledger.grants);
    TallyIsCount(With(BY_MONTH, month), s.ledger.grants);
  }

  /** A reservation that reads the counters goes on exactly when there is room. */
  lemma AdmittedIff(p: Policy, cfg: Config, events: seq<Event>, session: string, day: nat, month: nat, q: Quote)
    ensures var s := Run(p, cfg, EMPTY, events);
            CapReason(cfg, s, session, day, month, q).None? <==> Admits(cfg, s, session, day, month, q)
  {
    var s := Run(p, cfg, EMPTY, events);
    CountsAreGrants(p, cfg, events, session, day, month);
    UsedIsSpent(p, cfg, events);
    EstimateIsAmount(cfg, q);
    var input, output := if q.input > 0 then q.input else 0, if q.output > 0 then q.output else 0;
    forall price | AskingPrice(cfg, q, price) ensures price == Estimate(cfg, q) {
      AmountIsUnique(cfg, q, input, output, price, Estimate(cfg, q));
    }
  }

  /** And it gets as far as the counters exactly when spilling over is on, what it asks
      for is within the token caps that a dollar cap brings into force, the store is
      ready, and no block is seen. */
  lemma LetInIff(cfg: Config, s: State, q: Quote, store: Store, blind: bool)
    ensures EnterReason(cfg, s, q, store, blind).None? <==>
              && cfg.enabled && (cfg.perTurn <= 0 || 1 <= cfg.perTurn) && store == Ready && (s.ledger.error ==> blind)
              && (cfg.dailyUsd != 0.0 || cfg.monthlyUsd != 0.0 ==>
                    (cfg.maxInput > 0 ==> q.input <= cfg.maxInput) && (cfg.maxOutput > 0 ==> q.output <= cfg.maxOutput))
  {
  }

  /** What each refusal says. */
  ghost predicate TrueRefusal(cfg: Config, s: State, session: string, day: nat, month: nat, q: Quote, store: Store, why: Reason) {
    match why
    case Disabled => !cfg.enabled
    case CallCapZero => 0 < cfg.perTurn < 1
    case InputTokenCap => 0 < cfg.maxInput < q.input
    case OutputTokenCap => 0 < cfg.maxOutput < q.output
    case StoreUnavailable => store != Ready
    case AccountingBlocked => s.ledger.error
    case SessionCap => 0 < cfg.perSession <= GrantedTo(BY_SESSION, session, s)
    case DayCap => 0 < cfg.perDay <= GrantedTo(BY_DAY, day, s)
    case MonthCap => 0 < cfg.perMonth <= GrantedTo(BY_MONTH, month, s)
    case DailyUsd => exists price :: AskingPrice(cfg, q, price) && 0.0 < cfg.dailyUsd < SpentToday(s) + price
    case MonthlyUsd => exists price :: AskingPrice(cfg, q, price) && 0.0 < cfg.monthlyUsd < SpentThisMonth(s) + price
  }

  /** Whatever reason a reservation is refused for holds of the state it was refused in. */
  lemma RefusalsAreTrue(p: Policy, cfg: Config, events: seq<Event>, session: string, day: nat, month: nat, q: Quote, store: Store, blind: bool)
    ensures var s, why := Run(p, cfg, EMPTY, events), EnterReason(cfg, Run(p, cfg, EMPTY, events), q, store, blind);
            why.Some? ==> TrueRefusal(cfg, s, session, day, month, q, store, why.value)
    ensures var s, why := Run(p, cfg, EMPTY, events), CapReason(cfg, Run(p, cfg, EMPTY, events), session, day, month, q);
            why.Some? ==> TrueRefusal(cfg, s, session, day, month, q, store, why.value)
  {
    CountsAreGrants(p, cfg, events, session, day, month);
    UsedIsSpent(p, cfg, events);
    EstimateIsAmount(cfg, q);
  }

  // ----- how far a window can overrun -----

  lemma {:induction false} WeightNonNegative(f: Call -> real, calls: seq<Call>)
    requires forall c :: c in calls ==> f(c) >= 0.0
    ensures Weight(f, calls) >= 0.0
  {
    if calls != [] {
      WeightNonNegative(f, calls[..|calls| - 1]);
    }
  }

  lemma MoreTimes(j: nat, k: nat, c: real)
    requires j <= k && c >= 0.0
    ensures Times(j, c) <= Times(k, c)
  {
    assert Times(k, c) - Times(j, c) == (k - j) as real * c;
  }

  /** If at most `k` cloud calls may run at once and none is estimated above `c`, no day
      and no month ever costs more than its cap and `k - 1` such estimates. */
  lemma WindowsNeverOverrun(p: Policy, cfg: Config, events: seq<Event>, k: nat, c: real)
    requires HonestRun(p, cfg, EMPTY, events, c) && c >= 0.0
    requires k >= 1 && (p.maxCloud <= k || p.normal <= k || p.hard <= k)
    ensures var s := Run(p, cfg, EMPTY, events);
            && (cfg.dailyUsd > 0.0 ==> SpentToday(s) <= cfg.dailyUsd + (k - 1) as real * c)
            && (cfg.monthlyUsd > 0.0 ==> SpentThisMonth(s) <= cfg.monthlyUsd + (k - 1) as real * c)
  {
    UsedIsSpent(p, cfg, events);
    MoreTimes(Max(Width(p) - 1, 0), k - 1, c);
    if cfg.dailyUsd > 0.0 {
      WindowKept(p, cfg, events, Daily, c);
    }
    if cfg.monthlyUsd > 0.0 {
      WindowKept(p, cfg, events, Monthly, c);
    }
  }

  lemma WindowKept(p: Policy, cfg: Config, events: seq<Event>, w: Window, c: real)
    requires HonestRun(p, cfg, EMPTY, events, c) && c >= 0.0 && Cap(cfg, w) > 0.0
    ensures Used(Run(p, cfg, EMPTY, events), w) <= Cap(cfg, w) + Slack(p, c)
  {
    OvershootBound(p, cfg, events, w, c);
    EmptyOk(p, Est(cfg), w, Cap(cfg, w), c);
    SpendRun(p, cfg, EMPTY, events, w, c);
    WeightNonNegative(InFlightCost(Est(cfg)), Run(p, cfg, EMPTY, events).calls);
  }
}
