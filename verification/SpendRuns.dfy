/** What every run of the admission machine keeps: slots are conserved, counters
    agree with the grants, call caps hold, and spending overshoots a cap by less
    than one call's estimate per other cloud slot. */
module SpendRuns {
  import opened Text
  import opened SpendControl

  // ----- folds over the calls -----

  function Tally<T>(p: T -> bool, calls: seq<T>): nat {
    if calls == [] then 0 else Tally(p, calls[..|calls| - 1]) + if p(calls[|calls| - 1]) then 1 else 0
  }

  function Weight(f: Call -> real, calls: seq<Call>): real {
    if calls == [] then 0.0 else Weight(f, calls[..|calls| - 1]) + f(calls[|calls| - 1])
  }

  lemma {:induction false} TallyUpdate(p: Call -> bool, calls: seq<Call>, i: nat, c: Call)
    requires i < |calls|
    ensures Tally(p, calls[i := c]) == Tally(p, calls) - (if p(calls[i]) then 1 else 0) + (if p(c) then 1 else 0)
  {
    var n := |calls| - 1;
    if i == n {
      assert calls[i := c][..n] == calls[..n];
    } else {
      assert calls[i := c][..n] == calls[..n][i := c];
      TallyUpdate(p, calls[..n], i, c);
    }
  }

  lemma {:induction false} WeightUpdate(f: Call -> real, calls: seq<Call>, i: nat, c: Call)
    requires i < |calls|
    ensures Weight(f, calls[i := c]) == Weight(f, calls) - f(calls[i]) + f(c)
  {
    var n := |calls| - 1;
    if i == n {
      assert calls[i := c][..n] == calls[..n];
    } else {
      assert calls[i := c][..n] == calls[..n][i := c];
      WeightUpdate(f, calls[..n], i, c);
    }
  }

  lemma FoldsAppend(p: Call -> bool, f: Call -> real, calls: seq<Call>, c: Call)
    ensures Tally(p, calls + [c]) == Tally(p, calls) + (if p(c) then 1 else 0)
    ensures Weight(f, calls + [c]) == Weight(f, calls) + f(c)
  {
    assert (calls + [c])[..|calls|] == calls;
  }

  /** A narrower predicate that misses a call the wider one counts. */
  lemma {:induction false} TallyNarrower(p: Call -> bool, q: Call -> bool, calls: seq<Call>)
    requires forall c :: p(c) ==> q(c)
    ensures Tally(p, calls) <= Tally(q, calls)
    ensures forall i :: 0 <= i < |calls| && q(calls[i]) && !p(calls[i]) ==> Tally(p, calls) + 1 <= Tally(q, calls)
  {
    if calls != [] {
      var n := |calls| - 1;
      TallyNarrower(p, q, calls[..n]);
      forall i | 0 <= i < |calls| && q(calls[i]) && !p(calls[i]) ensures Tally(p, calls) + 1 <= Tally(q, calls) {
        if i < n {
          assert calls[..n][i] == calls[i];
        }
      }
    }
  }

  /** Each counted call weighs at most `c`, every other nothing. */
  lemma {:induction false} WeightBound(f: Call -> real, p: Call -> bool, calls: seq<Call>, c: real)
    requires c >= 0.0
    requires forall i :: 0 <= i < |calls| ==> 0.0 <= f(calls[i]) <= (if p(calls[i]) then c else 0.0)
    ensures 0.0 <= Weight(f, calls) <= c * Tally(p, calls) as real
  {
    if calls != [] {
      var n := |calls| - 1;
      WeightBound(f, p, calls[..n], c);
    }
  }

  // ----- slots -----

  predicate HoldsSlot(c: Call) {
    !c.phase.Released?
  }

  function HoldsCloud(): Call -> bool {
    (c: Call) => HoldsSlot(c) && c.cloud
  }

  function HoldsLocal(): Call -> bool {
    (c: Call) => HoldsSlot(c) && !c.cloud
  }

  /** The counters count the slots held, within every limit. */
  ghost predicate SlotsOk(p: Policy, s: State) {
    && s.slots.cloud == Tally(HoldsCloud(), s.calls)
    && s.slots.local == Tally(HoldsLocal(), s.calls)
    && s.slots.total == s.slots.local + s.slots.cloud
    && s.slots.total <= Max(0, Min(p.normal, p.hard))
    && s.slots.cloud <= Max(0, p.maxCloud) && s.slots.local <= Max(0, p.maxLocal)
  }

  lemma SlotHeldCounts(s: State, id: nat)
    requires id < |s.calls| && HoldsSlot(s.calls[id])
    ensures if s.calls[id].cloud then Tally(HoldsCloud(), s.calls) >= 1 else Tally(HoldsLocal(), s.calls) >= 1
  {
    var none := (c: Call) => false;
    TallyNarrower(none, HoldsCloud(), s.calls);
    TallyNarrower(none, HoldsLocal(), s.calls);
  }

  lemma StartSlots(p: Policy, s: State, cloud: bool)
    requires SlotsOk(p, s)
    ensures SlotsOk(p, StartStep(p, s, cloud))
  {
    FoldsAppend(HoldsCloud(), c => 0.0, s.calls, Call(cloud, Waiting));
    FoldsAppend(HoldsLocal(), c => 0.0, s.calls, Call(cloud, Waiting));
  }

  lemma FinishSlots(p: Policy, s: State, id: nat)
    requires SlotsOk(p, s)
    ensures SlotsOk(p, FinishStep(s, id))
  {
    if id < |s.calls| && HoldsSlot(s.calls[id]) {
      SlotHeldCounts(s, id);
      TallyUpdate(HoldsCloud(), s.calls, id, s.calls[id].(phase := Released));
      TallyUpdate(HoldsLocal(), s.calls, id, s.calls[id].(phase := Released));
    }
  }

  /** Any other event moves at most one held call to another held phase. */
  ghost predicate Moves(a: seq<Call>, b: seq<Call>) {
    b == a || exists id: nat, c: Call :: MovesTo(a, b, id, c)
  }

  predicate MovesTo(a: seq<Call>, b: seq<Call>, id: nat, c: Call) {
    id < |a| && HoldsSlot(a[id]) && HoldsSlot(c) && c.cloud == a[id].cloud && b == a[id := c]
  }

  lemma OthersMove(p: Policy, cfg: Config, s: State, e: Event)
    requires !e.Start? && !e.Finish?
    ensures Moves(s.calls, Apply(p, cfg, s, e).calls)
  {
    var s' := Apply(p, cfg, s, e);
    if s'.calls != s.calls {
      MovedCall(p, cfg, s, e);
      assert MovesTo(s.calls, s'.calls, e.id, s'.calls[e.id]);
    }
  }

  lemma MovedCall(p: Policy, cfg: Config, s: State, e: Event)
    requires !e.Start? && !e.Finish? && Apply(p, cfg, s, e).calls != s.calls
    ensures !e.SetBlock? && !e.ClearBlock? && !e.Tick? && e.id < |s.calls|
    ensures MovesTo(s.calls, Apply(p, cfg, s, e).calls, e.id, Apply(p, cfg, s, e).calls[e.id])
  {
  }

  lemma CountersStand(p: Policy, cfg: Config, s: State, e: Event)
    requires !e.Start? && !e.Finish?
    ensures Apply(p, cfg, s, e).slots == s.slots
  {
  }

  lemma MovesKeepTallies(a: seq<Call>, b: seq<Call>)
    requires Moves(a, b)
    ensures Tally(HoldsCloud(), b) == Tally(HoldsCloud(), a) && Tally(HoldsLocal(), b) == Tally(HoldsLocal(), a)
  {
    if b != a {
      var id: nat, c: Call :| MovesTo(a, b, id, c);
      TallyUpdate(HoldsCloud(), a, id, c);
      TallyUpdate(HoldsLocal(), a, id, c);
    }
  }

  lemma SlotsStep(p: Policy, cfg: Config, s: State, e: Event)
    requires SlotsOk(p, s)
    ensures SlotsOk(p, Apply(p, cfg, s, e))
  {
    match e
    case Start(cloud) => StartSlots(p, s, cloud);
    case Finish(id) => FinishSlots(p, s, id);
    case _ =>
      OthersMove(p, cfg, s, e);
      CountersStand(p, cfg, s, e);
      MovesKeepTallies(s.calls, Apply(p, cfg, s, e).calls);
  }

  lemma {:induction false} SlotsRun(p: Policy, cfg: Config, s: State, events: seq<Event>)
    requires SlotsOk(p, s)
    ensures SlotsOk(p, Run(p, cfg, s, events))
    decreases events
  {
    if events != [] {
      SlotsStep(p, cfg, s, events[0]);
      SlotsRun(p, cfg, Apply(p, cfg, s, events[0]), events[1..]);
    }
  }

  /** At all times the three counters count the slots held, within their limits,
      and giving a slot back takes one off without the clamp at zero acting. */
  lemma SlotsConserved(p: Policy, cfg: Config, events: seq<Event>)
    ensures var s := Run(p, cfg, EMPTY, events);
            && SlotsOk(p, s)
            && forall id: nat :: id < |s.calls| && HoldsSlot(s.calls[id]) ==>
                 FinishStep(s, id).slots
                 == if s.calls[id].cloud then Slots(s.slots.total - 1, s.slots.local, s.slots.cloud - 1)
                    else Slots(s.slots.total - 1, s.slots.local - 1, s.slots.cloud)
  {
    SlotsRun(p, cfg, EMPTY, events);
    var s := Run(p, cfg, EMPTY, events);
    forall id: nat | id < |s.calls| && HoldsSlot(s.calls[id]) ensures s.slots.total >= 1 && (if s.calls[id].cloud then s.slots.cloud >= 1 else s.slots.local >= 1) {
      SlotHeldCounts(s, id);
    }
  }

  // ----- the lock -----

  predicate Reserving(c: Call) {
    c.phase.Checking? || c.phase.Pending?
  }

  predicate CloudOnly(c: Call) {
    Reserving(c) || c.phase.InFlight? ==> c.cloud
  }

  /** Exactly the holder of the lock is between its check and its commit. */
  ghost predicate LockOk(s: State) {
    && (s.lock.Some? ==> s.lock.value < |s.calls|)
    && (forall id: nat :: id < |s.calls| ==> (Reserving(s.calls[id]) <==> s.lock == Some(id)))
    && (forall id: nat :: id < |s.calls| ==> CloudOnly(s.calls[id]))
  }

  lemma LockMoves(s: State, s': State, id: nat, phase: Phase)
    requires LockOk(s) && id < |s.calls|
    requires s'.calls == s.calls[id := s.calls[id].(phase := phase)]
    requires CloudOnly(s'.calls[id])
    requires if Reserving(s'.calls[id]) then s'.lock == Some(id) && (s.lock == Some(id) || s.lock == None)
             else s'.lock == Unlock(s, id)
    ensures LockOk(s')
  {
  }

  lemma ReserveLock(p: Policy, cfg: Config, s: State, e: Event)
    requires LockOk(s) && (e.ReserveEnter? || e.ReserveRead? || e.ReserveCommit? || e.ReserveFail?)
    ensures LockOk(Apply(p, cfg, s, e))
  {
    var s' := Apply(p, cfg, s, e);
    if s' != s {
      LockMoves(s, s', e.id, s'.calls[e.id].phase);
    }
  }

  lemma LockStep(p: Policy, cfg: Config, s: State, e: Event)
    requires LockOk(s)
    ensures LockOk(Apply(p, cfg, s, e))
  {
    var s' := Apply(p, cfg, s, e);
    match e
    case Start(cloud) =>
    case SetBlock =>
    case ClearBlock =>
    case Tick(day, month) =>
    case Record(id, input, output, store, noted) =>
      if id < |s.calls| && s.calls[id].phase.InFlight? {
        LockMoves(s, s', id, Settled);
      }
    case ProviderFails(id) =>
      if id < |s.calls| && s.calls[id].phase.InFlight? {
        LockMoves(s, s', id, Settled);
      }
    case Finish(id) =>
      if id < |s.calls| && HoldsSlot(s.calls[id]) {
        LockMoves(s, s', id, Released);
      }
    case _ => ReserveLock(p, cfg, s, e);
  }

  // ----- the overshoot bound -----

  function Quoted(c: Call): Option<Quote> {
    if Reserving(c) || c.phase.InFlight? then Some(c.phase.quote) else None
  }

  /** The estimate of a quote, as a value: what follows holds of any estimate. */
  function Est(cfg: Config): Quote -> real {
    (q: Quote) => Estimate(cfg, q)
  }

  function InFlightCost(est: Quote -> real): Call -> real {
    (c: Call) => if c.phase.InFlight? then est(c.phase.quote) else 0.0
  }

  function IsInFlight(): Call -> bool {
    (c: Call) => c.phase.InFlight? && c.cloud
  }

  ghost predicate QuotesOk(est: Quote -> real, calls: seq<Call>, c: real) {
    forall i :: 0 <= i < |calls| ==> QuoteOk(est, calls[i], c)
  }

  predicate QuoteOk(est: Quote -> real, call: Call, c: real) {
    Quoted(call).Some? ==> 0.0 <= est(Quoted(call).value) <= c
  }

  ghost predicate CostsOk(usage: seq<Usage>) {
    forall i :: 0 <= i < |usage| ==> usage[i].cost >= 0.0
  }

  /** What is spent in the window plus what the calls in flight may still cost. */
  function Exposure(est: Quote -> real, s: State, w: Window): real {
    Used(s, w) + Weight(InFlightCost(est), s.calls)
  }

  /** How many cloud calls the policy lets run at once. */
  function Width(p: Policy): nat {
    Max(0, Min(p.maxCloud, Min(p.normal, p.hard)))
  }

  /** One estimate for every cloud call but one. */
  function Slack(p: Policy, c: real): real {
    Times(Max(Width(p) - 1, 0), c)
  }

  function Times(k: int, c: real): real {
    k as real * c
  }

  ghost predicate BoundOk(est: Quote -> real, s: State, w: Window, ceiling: real) {
    && Exposure(est, s, w) <= ceiling
    && forall id: nat :: id < |s.calls| && s.calls[id].phase.Pending? ==>
         Exposure(est, s, w) + est(s.calls[id].phase.quote) <= ceiling
  }

  ghost predicate SpendOk(p: Policy, est: Quote -> real, s: State, w: Window, cap: real, c: real) {
    && SlotsOk(p, s) && LockOk(s) && QuotesOk(est, s.calls, c) && CostsOk(s.ledger.usage)
    && BoundOk(est, s, w, cap + Slack(p, c))
  }

  /** A call asks for at most `c`, and costs at most what it reserved. */
  predicate Honest(cfg: Config, s: State, e: Event, c: real) {
    && (e.ReserveEnter? ==> 0.0 <= Estimate(cfg, e.quote) <= c)
    && (e.Record? && e.id < |s.calls| && s.calls[e.id].phase.InFlight? && e.input.Some? && e.output.Some?
        && e.input.value >= 0 && e.output.value >= 0 ==>
          0.0 <= Cost(cfg, e.input.value, e.output.value, s.calls[e.id].phase.quote) <= Estimate(cfg, s.calls[e.id].phase.quote))
  }

  predicate HonestRun(p: Policy, cfg: Config, s: State, events: seq<Event>, c: real)
    decreases events
  {
    events == [] || (Honest(cfg, s, events[0], c) && HonestRun(p, cfg, Apply(p, cfg, s, events[0]), events[1..], c))
  }

  /** Billing no more tokens than were reserved costs no more than the estimate. */
  lemma CostWithinEstimate(cfg: Config, q: Quote, input: int, output: int)
    requires cfg.inputPrice >= 0.0 && cfg.outputPrice >= 0.0 && q.inputPrice >= 0.0 && q.outputPrice >= 0.0
    requires 0 <= input <= Max(q.input, 0) && 0 <= output <= Max(q.output, 0)
    ensures 0.0 <= Cost(cfg, input, output, q) <= Estimate(cfg, q)
  {
    CostGrows(input, Max(q.input, 0), PriceOr(q.inputPrice, cfg.inputPrice));
    CostGrows(output, Max(q.output, 0), PriceOr(q.outputPrice, cfg.outputPrice));
  }

  lemma CostGrows(a: int, b: int, price: real)
    requires 0 <= a <= b && price >= 0.0
    ensures 0.0 <= CostAt(a, price) <= CostAt(b, price)
  {
    assert a as real * price <= b as real * price;
    assert 0.0 <= a as real * price;
  }

  lemma {:induction false} SpentNonNegative(usage: seq<Usage>, w: Window, from: nat)
    requires CostsOk(usage)
    ensures Spent(usage, w, from) >= 0.0
  {
    if usage != [] {
      SpentNonNegative(usage[..|usage| - 1], w, from);
    }
  }

  lemma {:induction false} LaterWindowSpendsLess(usage: seq<Usage>, w: Window, from: nat, from': nat)
    requires CostsOk(usage) && from <= from'
    ensures Spent(usage, w, from') <= Spent(usage, w, from)
  {
    if usage != [] {
      LaterWindowSpendsLess(usage[..|usage| - 1], w, from, from');
    }
  }

  lemma SpentAppend(usage: seq<Usage>, u: Usage, w: Window, from: nat)
    ensures Spent(usage + [u], w, from) == Spent(usage, w, from) + if (if w.Daily? then u.day else u.month) >= from then u.cost else 0.0
  {
    assert (usage + [u])[..|usage|] == usage;
  }

  /** A step that can only lower the exposure and withdraw reservations. */
  lemma LessExposure(est: Quote -> real, s: State, s': State, w: Window, ceiling: real)
    requires BoundOk(est, s, w, ceiling)
    requires Exposure(est, s', w) <= Exposure(est, s, w)
    requires forall id: nat :: id < |s'.calls| && s'.calls[id].phase.Pending? ==> id < |s.calls| && s.calls[id].phase == s'.calls[id].phase
    ensures BoundOk(est, s', w, ceiling)
  {
  }

  lemma Scale(n: nat, k: int, c: real)
    requires n <= k && c >= 0.0
    ensures c * n as real <= Times(k, c)
  {
  }

  lemma InFlightWeight(est: Quote -> real, calls: seq<Call>, c: real)
    requires QuotesOk(est, calls, c) && c >= 0.0
    requires forall i :: 0 <= i < |calls| ==> CloudOnly(calls[i])
    ensures Weight(InFlightCost(est), calls) <= c * Tally(IsInFlight(), calls) as real
  {
    forall i | 0 <= i < |calls| ensures 0.0 <= InFlightCost(est)(calls[i]) <= (if IsInFlight()(calls[i]) then c else 0.0) {
      assert QuoteOk(est, calls[i], c) && CloudOnly(calls[i]);
    }
    WeightBound(InFlightCost(est), IsInFlight(), calls, c);
  }

  /** While one call reserves, the others in flight number at most one less than
      the cloud slots. */
  lemma OthersInFlight(p: Policy, s: State, id: nat)
    requires SlotsOk(p, s) && id < |s.calls| && Reserving(s.calls[id]) && s.calls[id].cloud
    ensures Tally(IsInFlight(), s.calls) <= Max(Width(p) - 1, 0)
  {
    TallyNarrower(IsInFlight(), HoldsCloud(), s.calls);
    assert HoldsCloud()(s.calls[id]) && !IsInFlight()(s.calls[id]);
  }

  lemma OthersWeigh(p: Policy, est: Quote -> real, s: State, id: nat, c: real)
    requires SlotsOk(p, s) && QuotesOk(est, s.calls, c) && LockOk(s) && c >= 0.0
    requires id < |s.calls| && Reserving(s.calls[id])
    ensures Weight(InFlightCost(est), s.calls) <= Slack(p, c)
  {
    assert CloudOnly(s.calls[id]);
    OthersInFlight(p, s, id);
    InFlightWeight(est, s.calls, c);
    Scale(Tally(IsInFlight(), s.calls), Max(Width(p) - 1, 0), c);
  }

  lemma ReadBound(p: Policy, est: Quote -> real, s: State, s': State, id: nat, w: Window, cap: real, c: real)
    requires SpendOk(p, est, s, w, cap, c) && c >= 0.0
    requires id < |s.calls| == |s'.calls| && s.calls[id].phase.Checking? && s'.ledger == s.ledger && s'.day == s.day && s'.month == s.month
    requires s'.calls == s.calls[id := s.calls[id].(phase := s'.calls[id].phase)] && !s'.calls[id].phase.InFlight?
    requires s'.calls[id].phase.Pending? ==> s'.calls[id].phase.quote == s.calls[id].phase.quote && Used(s, w) + est(s.calls[id].phase.quote) <= cap
    ensures BoundOk(est, s', w, cap + Slack(p, c))
  {
    WeightUpdate(InFlightCost(est), s.calls, id, s'.calls[id]);
    OthersWeigh(p, est, s, id, c);
    assert Exposure(est, s', w) == Exposure(est, s, w);
  }

  lemma CommitBound(p: Policy, est: Quote -> real, s: State, id: nat, w: Window, cap: real, c: real)
    requires SpendOk(p, est, s, w, cap, c)
    ensures BoundOk(est, CommitStep(s, id), w, cap + Slack(p, c))
  {
    var s' := CommitStep(s, id);
    if s' != s {
      WeightUpdate(InFlightCost(est), s.calls, id, s'.calls[id]);
      assert Exposure(est, s', w) == Exposure(est, s, w) + est(s.calls[id].phase.quote);
      assert forall i: nat :: i < |s'.calls| && i != id ==> !s'.calls[i].phase.Pending?;
    }
  }

  lemma RecordBound(est: Quote -> real, s: State, s': State, id: nat, cost: real, w: Window, ceiling: real)
    requires BoundOk(est, s, w, ceiling) && id < |s.calls| && s.calls[id].phase.InFlight?
    requires s'.calls == s.calls[id := s.calls[id].(phase := Settled)] && s'.day == s.day && s'.month == s.month
    requires 0.0 <= cost <= est(s.calls[id].phase.quote)
    requires s'.ledger.usage == s.ledger.usage || s'.ledger.usage == s.ledger.usage + [Usage(s.day, s.month, cost)]
    ensures BoundOk(est, s', w, ceiling)
  {
    WeightUpdate(InFlightCost(est), s.calls, id, s'.calls[id]);
    SpentAppend(s.ledger.usage, Usage(s.day, s.month, cost), w, if w.Daily? then s.day else s.month);
    LessExposure(est, s, s', w, ceiling);
  }

  /** No new reservation and no new call in flight. */
  ghost predicate Withdraws(est: Quote -> real, s: State, s': State) {
    && Weight(InFlightCost(est), s'.calls) <= Weight(InFlightCost(est), s.calls)
    && forall id: nat :: id < |s'.calls| && s'.calls[id].phase.Pending? ==> id < |s.calls| && s.calls[id].phase == s'.calls[id].phase
  }

  lemma SettledWithdraws(est: Quote -> real, s: State, s': State, id: nat, c: real)
    requires QuotesOk(est, s.calls, c) && id < |s.calls| == |s'.calls|
    requires s'.calls == s.calls[id := s'.calls[id]] && !s'.calls[id].phase.InFlight? && !s'.calls[id].phase.Pending?
    ensures Withdraws(est, s, s')
  {
    WeightUpdate(InFlightCost(est), s.calls, id, s'.calls[id]);
    assert QuoteOk(est, s.calls[id], c);
  }

  lemma OtherWithdraws(p: Policy, cfg: Config, est: Quote -> real, s: State, e: Event, c: real)
    requires QuotesOk(est, s.calls, c) && !e.ReserveRead? && !e.ReserveCommit? && !e.Record?
    ensures Withdraws(est, s, Apply(p, cfg, s, e))
  {
    var s' := Apply(p, cfg, s, e);
    if e.Start? {
      FoldsAppend(IsInFlight(), InFlightCost(est), s.calls, Call(e.cloud, Waiting));
    } else if s'.calls != s.calls {
      OtherSettles(p, cfg, s, e);
      SettledWithdraws(est, s, s', e.id, c);
    }
  }

  lemma OtherSettles(p: Policy, cfg: Config, s: State, e: Event)
    requires !e.Start? && !e.ReserveRead? && !e.ReserveCommit? && !e.Record? && Apply(p, cfg, s, e).calls != s.calls
    ensures var s' := Apply(p, cfg, s, e);
            && !e.SetBlock? && !e.ClearBlock? && !e.Tick? && e.id < |s.calls|
            && |s'.calls| == |s.calls| && s'.calls == s.calls[e.id := s'.calls[e.id]]
            && !s'.calls[e.id].phase.InFlight? && !s'.calls[e.id].phase.Pending?
  {
  }

  lemma UsageStands(p: Policy, cfg: Config, s: State, e: Event)
    requires !e.Record?
    ensures Apply(p, cfg, s, e).ledger.usage == s.ledger.usage
    ensures Apply(p, cfg, s, e).day >= s.day && Apply(p, cfg, s, e).month >= s.month
  {
  }

  lemma OtherBound(p: Policy, cfg: Config, est: Quote -> real, s: State, e: Event, w: Window, ceiling: real, c: real)
    requires QuotesOk(est, s.calls, c) && CostsOk(s.ledger.usage) && BoundOk(est, s, w, ceiling)
    requires !e.ReserveRead? && !e.ReserveCommit? && !e.Record?
    ensures BoundOk(est, Apply(p, cfg, s, e), w, ceiling)
  {
    var s' := Apply(p, cfg, s, e);
    UsageStands(p, cfg, s, e);
    OtherWithdraws(p, cfg, est, s, e, c);
    LaterWindowSpendsLess(s.ledger.usage, w, if w.Daily? then s.day else s.month, if w.Daily? then s'.day else s'.month);
    LessExposure(est, s, s', w, ceiling);
  }

  lemma QuotesStep(p: Policy, cfg: Config, est: Quote -> real, s: State, e: Event, c: real)
    requires QuotesOk(est, s.calls, c) && (e.ReserveEnter? ==> 0.0 <= est(e.quote) <= c)
    ensures QuotesOk(est, Apply(p, cfg, s, e).calls, c)
  {
    var s' := Apply(p, cfg, s, e);
    forall i | 0 <= i < |s'.calls| ensures QuoteOk(est, s'.calls[i], c) {
      assert i < |s.calls| ==> QuoteOk(est, s.calls[i], c);
    }
  }

  /** What a reservation that passes its read has been told. */
  lemma ReadPassed(cfg: Config, s: State, id: nat, w: Window)
    requires id < |s.calls| && s.calls[id].phase.Checking? && Cap(cfg, w) > 0.0
    ensures var s' := ReadStep(cfg, s, id);
            && |s'.calls| == |s.calls| && s'.calls == s.calls[id := s.calls[id].(phase := s'.calls[id].phase)]
            && !s'.calls[id].phase.InFlight? && s'.ledger == s.ledger && s'.day == s.day && s'.month == s.month
            && (s'.calls[id].phase.Pending? ==>
                  s'.calls[id].phase.quote == s.calls[id].phase.quote && Used(s, w) + Est(cfg)(s.calls[id].phase.quote) <= Cap(cfg, w))
  {
  }

  /** What recording usage writes. */
  lemma Recorded(p: Policy, cfg: Config, s: State, e: Event, c: real) returns (cost: real)
    requires e.Record? && e.id < |s.calls| && s.calls[e.id].phase.InFlight? && Honest(cfg, s, e, c)
    requires 0.0 <= Est(cfg)(s.calls[e.id].phase.quote)
    ensures 0.0 <= cost <= Est(cfg)(s.calls[e.id].phase.quote)
    ensures var s' := Apply(p, cfg, s, e);
            && s'.calls == s.calls[e.id := s.calls[e.id].(phase := Settled)] && s'.day == s.day && s'.month == s.month
            && (s'.ledger.usage == s.ledger.usage || s'.ledger.usage == s.ledger.usage + [Usage(s.day, s.month, cost)])
  {
    var s' := Apply(p, cfg, s, e);
    cost := if s'.ledger.usage == s.ledger.usage then 0.0 else Cost(cfg, e.input.value, e.output.value, s.calls[e.id].phase.quote);
  }

  lemma BoundStep(p: Policy, cfg: Config, s: State, e: Event, w: Window, c: real)
    requires SpendOk(p, Est(cfg), s, w, Cap(cfg, w), c) && Honest(cfg, s, e, c) && Cap(cfg, w) > 0.0 && c >= 0.0
    ensures BoundOk(Est(cfg), Apply(p, cfg, s, e), w, Cap(cfg, w) + Slack(p, c)) && CostsOk(Apply(p, cfg, s, e).ledger.usage)
  {
    var s', est := Apply(p, cfg, s, e), Est(cfg);
    match e
    case ReserveRead(id) =>
      if id < |s.calls| && s.calls[id].phase.Checking? {
        ReadPassed(cfg, s, id, w);
        ReadBound(p, est, s, s', id, w, Cap(cfg, w), c);
      }
    case ReserveCommit(id) =>
      UsageStands(p, cfg, s, e);
      CommitBound(p, est, s, id, w, Cap(cfg, w), c);
    case Record(id, input, output, store, noted) =>
      if id < |s.calls| && s.calls[id].phase.InFlight? {
        assert QuoteOk(est, s.calls[id], c);
        var cost := Recorded(p, cfg, s, e, c);
        RecordBound(est, s, s', id, cost, w, Cap(cfg, w) + Slack(p, c));
      }
    case _ =>
      UsageStands(p, cfg, s, e);
      OtherBound(p, cfg, est, s, e, w, Cap(cfg, w) + Slack(p, c), c);
  }

  lemma SpendStep(p: Policy, cfg: Config, s: State, e: Event, w: Window, c: real)
    requires SpendOk(p, Est(cfg), s, w, Cap(cfg, w), c) && Honest(cfg, s, e, c) && Cap(cfg, w) > 0.0 && c >= 0.0
    ensures SpendOk(p, Est(cfg), Apply(p, cfg, s, e), w, Cap(cfg, w), c)
  {
    SlotsStep(p, cfg, s, e);
    LockStep(p, cfg, s, e);
    QuotesStep(p, cfg, Est(cfg), s, e, c);
    BoundStep(p, cfg, s, e, w, c);
  }

  lemma {:induction false} SpendRun(p: Policy, cfg: Config, s: State, events: seq<Event>, w: Window, c: real)
    requires SpendOk(p, Est(cfg), s, w, Cap(cfg, w), c) && HonestRun(p, cfg, s, events, c) && Cap(cfg, w) > 0.0 && c >= 0.0
    ensures SpendOk(p, Est(cfg), Run(p, cfg, s, events), w, Cap(cfg, w), c)
    decreases events
  {
    if events != [] {
      SpendStep(p, cfg, s, events[0], w, c);
      SpendRun(p, cfg, Apply(p, cfg, s, events[0]), events[1..], w, c);
    }
  }

  /** In every interleaving, with usage recorded between another reservation's read
      and its commit: what is spent in the window plus what is in flight never
      exceeds the cap by more than one estimate per other cloud call. */
  lemma OvershootBound(p: Policy, cfg: Config, events: seq<Event>, w: Window, c: real)
    requires HonestRun(p, cfg, EMPTY, events, c) && Cap(cfg, w) > 0.0 && c >= 0.0
    ensures Exposure(Est(cfg), Run(p, cfg, EMPTY, events), w) <= Cap(cfg, w) + Slack(p, c)
  {
    EmptyOk(p, Est(cfg), w, Cap(cfg, w), c);
    SpendRun(p, cfg, EMPTY, events, w, c);
  }

  lemma EmptyOk(p: Policy, est: Quote -> real, w: Window, cap: real, c: real)
    requires cap > 0.0 && c >= 0.0
    ensures SpendOk(p, est, EMPTY, w, cap, c)
  {
    Scale(0, Max(Width(p) - 1, 0), c);
  }

  // ----- the call counters -----

  /** The sum of a table's counts. */
  ghost function Total<K(!new)>(m: map<K, nat>): nat
    decreases m.Keys
  {
    if m.Keys == {} then 0
    else
      var k :| k in m;
      m[k] + Total(m - {k})
  }

  lemma {:induction false} TotalAt<K(!new)>(m: map<K, nat>, k: K)
    requires k in m
    ensures Total(m) == m[k] + Total(m - {k})
    decreases m.Keys
  {
    var j :| j in m && Total(m) == m[j] + Total(m - {j});
    if j != k {
      TotalAt(m - {j}, k);
      TotalAt(m - {k}, j);
      assert m - {j} - {k} == m - {k} - {j};
    }
  }

  lemma TotalRaised<K(!new)>(m: map<K, nat>, k: K)
    ensures Total(m[k := Count(m, k) + 1]) == Total(m) + 1
  {
    var m' := m[k := Count(m, k) + 1];
    TotalAt(m', k);
    assert m' - {k} == m - {k};
    if k in m {
      TotalAt(m, k);
    } else {
      assert m - {k} == m;
    }
  }

  function With<K(==)>(key: Grant -> K, k: K): Grant -> bool {
    (g: Grant) => key(g) == k
  }

  /** A table's counters count the grants under their keys, and add up to all of them. */
  ghost predicate TableOk<K(!new)>(m: map<K, nat>, key: Grant -> K, grants: seq<Grant>) {
    (forall k :: Count(m, k) == Tally(With(key, k), grants)) && Total(m) == |grants|
  }

  const BY_SESSION := (g: Grant) => g.session
  const BY_DAY := (g: Grant) => g.day
  const BY_MONTH := (g: Grant) => g.month

  ghost predicate CountersOk(l: Ledger) {
    && TableOk(l.sessions, BY_SESSION, l.grants)
    && TableOk(l.days, BY_DAY, l.grants)
    && TableOk(l.months, BY_MONTH, l.grants)
  }

  lemma TallyAppend<T(!new)>(p: T -> bool, s: seq<T>, x: T)
    ensures Tally(p, s + [x]) == Tally(p, s) + if p(x) then 1 else 0
  {
    assert (s + [x])[..|s|] == s;
  }

  lemma TableCounts<K(!new)>(m: map<K, nat>, key: Grant -> K, grants: seq<Grant>, g: Grant)
    requires TableOk(m, key, grants)
    ensures TableOk(m[key(g) := Count(m, key(g)) + 1], key, grants + [g])
  {
    var m' := m[key(g) := Count(m, key(g)) + 1];
    forall k ensures Count(m', k) == Tally(With(key, k), grants + [g]) {
      TallyAppend(With(key, k), grants, g);
    }
    TotalRaised(m, key(g));
  }

  lemma GrantCounts(l: Ledger, g: Grant)
    requires CountersOk(l)
    ensures CountersOk(Granted(l, g))
  {
    TableCounts(l.sessions, BY_SESSION, l.grants, g);
    TableCounts(l.days, BY_DAY, l.grants, g);
    TableCounts(l.months, BY_MONTH, l.grants, g);
  }

  predicate SameCounters(l: Ledger, l': Ledger) {
    l'.sessions == l.sessions && l'.days == l.days && l'.months == l.months && l'.grants == l.grants
  }

  /** The events that write the counters: the commit of a pending reservation, and a
      failure that comes after it. */
  predicate Counts(s: State, e: Event) {
    && (e.ReserveCommit? || (e.ReserveFail? && e.late))
    && e.id < |s.calls| && s.calls[e.id].phase.Pending?
  }

  lemma OthersCountNothing(p: Policy, cfg: Config, s: State, e: Event)
    requires !Counts(s, e)
    ensures SameCounters(s.ledger, Apply(p, cfg, s, e).ledger)
  {
  }

  /** Nothing else touches a counter: a refused reservation and one that fails before
      its commit leave them all alone, and any other adds one to exactly its three. */
  lemma OnlyCommitsCount(p: Policy, cfg: Config, s: State, e: Event)
    ensures var s' := Apply(p, cfg, s, e);
            if Counts(s, e) then
              var c := s.calls[e.id].phase;
              SameCounters(Granted(s.ledger, Grant(c.session, c.day, c.month)), s'.ledger)
            else SameCounters(s.ledger, s'.ledger)
  {
    if !Counts(s, e) {
      OthersCountNothing(p, cfg, s, e);
    }
  }

  lemma CountersStep(p: Policy, cfg: Config, s: State, e: Event)
    requires CountersOk(s.ledger)
    ensures CountersOk(Apply(p, cfg, s, e).ledger)
  {
    OnlyCommitsCount(p, cfg, s, e);
    if Counts(s, e) {
      var c := s.calls[e.id].phase;
      GrantCounts(s.ledger, Grant(c.session, c.day, c.month));
    }
  }

  // ----- the call caps -----

  predicate Room(cap: int, calls: nat) {
    cap > 0 ==> calls < cap
  }

  predicate Within(cap: int, calls: nat) {
    cap > 0 ==> calls <= cap
  }

  ghost predicate AllWithin<K(!new)>(cap: int, m: map<K, nat>) {
    forall k: K :: Within(cap, Count(m, k))
  }

  ghost predicate CapsOk(cfg: Config, s: State) {
    && AllWithin(cfg.perSession, s.ledger.sessions)
    && AllWithin(cfg.perDay, s.ledger.days) && AllWithin(cfg.perMonth, s.ledger.months)
    && (forall id: nat :: id < |s.calls| && s.calls[id].phase.Pending? ==> HasRoom(cfg, s.ledger, s.calls[id].phase))
  }

  predicate HasRoom(cfg: Config, l: Ledger, c: Phase)
    requires c.Checking? || c.Pending?
  {
    && Room(cfg.perSession, Count(l.sessions, c.session))
    && Room(cfg.perDay, Count(l.days, c.day)) && Room(cfg.perMonth, Count(l.months, c.month))
  }

  lemma CapsStep(p: Policy, cfg: Config, s: State, e: Event)
    requires LockOk(s) && CapsOk(cfg, s)
    ensures CapsOk(cfg, Apply(p, cfg, s, e))
  {
    var s' := Apply(p, cfg, s, e);
    OnlyCommitsCount(p, cfg, s, e);
    NewPending(p, cfg, s, e);
    if Counts(s, e) {
      var c := s.calls[e.id].phase;
      assert HasRoom(cfg, s.ledger, c);
      RaisedWithin(cfg.perSession, s.ledger.sessions, c.session);
      RaisedWithin(cfg.perDay, s.ledger.days, c.day);
      RaisedWithin(cfg.perMonth, s.ledger.months, c.month);
      assert forall id: nat :: id < |s'.calls| ==> !s'.calls[id].phase.Pending?;
    }
  }

  lemma RaisedWithin<K(!new)>(cap: int, m: map<K, nat>, k: K)
    requires AllWithin(cap, m) && Room(cap, Count(m, k))
    ensures AllWithin(cap, m[k := Count(m, k) + 1])
  {
    var m' := m[k := Count(m, k) + 1];
    forall j ensures Within(cap, Count(m', j)) {
      assert Within(cap, Count(m, j));
    }
  }

  /** A pending reservation was pending before or has just read counts with room. */
  lemma NewPending(p: Policy, cfg: Config, s: State, e: Event)
    ensures var s' := Apply(p, cfg, s, e);
            forall id: nat :: id < |s'.calls| && s'.calls[id].phase.Pending? ==>
              || (id < |s.calls| && s'.calls[id] == s.calls[id])
              || (SameCounters(s.ledger, s'.ledger) && HasRoom(cfg, s.ledger, s'.calls[id].phase))
  {
  }

  lemma {:induction false} CountersRun(p: Policy, cfg: Config, s: State, events: seq<Event>)
    requires LockOk(s) && CountersOk(s.ledger) && CapsOk(cfg, s)
    ensures var s' := Run(p, cfg, s, events); LockOk(s') && CountersOk(s'.ledger) && CapsOk(cfg, s')
    decreases events
  {
    if events != [] {
      LockStep(p, cfg, s, events[0]);
      CountersStep(p, cfg, s, events[0]);
      CapsStep(p, cfg, s, events[0]);
      CountersRun(p, cfg, Apply(p, cfg, s, events[0]), events[1..]);
    }
  }

  /** In every run the session, day and month counters count the grants, and no
      positive call cap is ever passed. */
  lemma CountersConserved(p: Policy, cfg: Config, events: seq<Event>)
    ensures var l := Run(p, cfg, EMPTY, events).ledger;
            && CountersOk(l)
            && AllWithin(cfg.perSession, l.sessions) && AllWithin(cfg.perDay, l.days) && AllWithin(cfg.perMonth, l.months)
  {
    CountersRun(p, cfg, EMPTY, events);
  }

  // ----- the accounting block -----

  function Holders(s: State): nat {
    if s.lock.Some? then 1 else 0
  }

  predicate NoClear(events: seq<Event>) {
    forall e :: e in events ==> !e.ClearBlock?
  }

  /** The reservations whose look at the block raised. */
  function BlindEntries(events: seq<Event>): nat {
    if events == [] then 0
    else (if events[0].ReserveEnter? && events[0].blind then 1 else 0) + BlindEntries(events[1..])
  }

  lemma BlockedStep(p: Policy, cfg: Config, s: State, e: Event)
    requires s.ledger.error && LockOk(s) && !e.ClearBlock?
    ensures var s' := Apply(p, cfg, s, e);
            && s'.ledger.error
            && |s'.ledger.grants| + Holders(s') <= |s.ledger.grants| + Holders(s) + (if e.ReserveEnter? && e.blind then 1 else 0)
  {
  }

  /** After an accounting block and until it is cleared, at most the one reservation
      already past its check is still granted, and those whose own look at the block
      raised. */
  lemma {:induction false} BlockStopsGrants(p: Policy, cfg: Config, s: State, events: seq<Event>)
    requires s.ledger.error && LockOk(s) && NoClear(events)
    ensures var s' := Run(p, cfg, s, events);
            && s'.ledger.error
            && |s'.ledger.grants| + Holders(s') <= |s.ledger.grants| + Holders(s) + BlindEntries(events)
    decreases events
  {
    if events != [] {
      BlockedStep(p, cfg, s, events[0]);
      LockStep(p, cfg, s, events[0]);
      assert NoClear(events[1..]);
      BlockStopsGrants(p, cfg, Apply(p, cfg, s, events[0]), events[1..]);
    }
  }

  lemma ReachableLock(p: Policy, cfg: Config, events: seq<Event>)
    ensures LockOk(Run(p, cfg, EMPTY, events))
  {
    CountersRun(p, cfg, EMPTY, events);
  }
}
