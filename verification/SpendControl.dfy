/** Admission of model calls: the router's generation slots and the cloud budget
    gate, as one state machine over concurrent calls. A call's position is its
    identity. Reservation holds the gate's lock from its first check to its
    commit; recording usage does not take it. */
module SpendControl {
  import opened Text

  /** The concurrency policy. */
  datatype Policy = Policy(normal: int, hard: int, maxLocal: int, maxCloud: int)

  /** A cap of zero means no cap. */
  datatype Config = Config(
    enabled: bool, perTurn: int, perSession: int, perDay: int, perMonth: int, dailyUsd: real, monthlyUsd: real,
    maxInput: int, maxOutput: int, inputPrice: real, outputPrice: real)

  /** What a call asks to reserve; prices are the route's, zero when unknown. */
  datatype Quote = Quote(input: int, output: int, inputPrice: real, outputPrice: real)

  datatype Reason =
    | Disabled | CallCapZero | InputTokenCap | OutputTokenCap | StoreUnavailable | AccountingBlocked
    | SessionCap | DayCap | MonthCap | DailyUsd | MonthlyUsd

  datatype Phase =
    | Waiting
    | Checking(quote: Quote, session: string, day: nat, month: nat)
    | Pending(quote: Quote, session: string, day: nat, month: nat)
    | InFlight(quote: Quote)
    | Settled
    | Released

  datatype Call = Call(cloud: bool, phase: Phase)

  /** One row of the usage table. */
  datatype Usage = Usage(day: nat, month: nat, cost: real)

  datatype Grant = Grant(session: string, day: nat, month: nat)

  /** The router's three counters. */
  datatype Slots = Slots(total: int, local: int, cloud: int)

  /** The gate's tables; `grants` is the history of committed reservations. */
  datatype Ledger = Ledger(
    sessions: map<string, nat>, days: map<nat, nat>, months: map<nat, nat>, usage: seq<Usage>, error: bool, grants: seq<Grant>)

  datatype State = State(slots: Slots, calls: seq<Call>, ledger: Ledger, day: nat, month: nat, lock: Option<nat>)

  /** The store when an operation reaches it: `Broken` fails before anything is
      written, `BrokenLate` after a usage row has been committed. */
  datatype Store = Ready | Unavailable | Broken | BrokenLate

  /** `blind` says that reading the accounting block raised, which counts as no block;
      `noted` that writing one succeeded, since a failure to write it is swallowed;
      `late` that a reservation failed after its counters had been committed. */
  datatype Event =
    | Start(cloud: bool)
    | ReserveEnter(id: nat, session: Option<string>, quote: Quote, store: Store, blind: bool)
    | ReserveRead(id: nat)
    | ReserveCommit(id: nat)
    | ReserveFail(id: nat, late: bool, noted: bool)
    | Record(id: nat, input: Option<int>, output: Option<int>, store: Store, noted: bool)
    | ProviderFails(id: nat)
    | Finish(id: nat)
    | SetBlock
    | ClearBlock
    | Tick(day: nat, month: nat)

  const EMPTY := State(Slots(0, 0, 0), [], Ledger(map[], map[], map[], [], false, []), 0, 0, None)

  // ----- slots -----

  function Min(a: int, b: int): int {
    if a < b then a else b
  }

  function Max(a: int, b: int): int {
    if a < b then b else a
  }

  predicate CanStart(p: Policy, cloud: bool, active: Slots) {
    && active.total < Min(p.normal, p.hard)
    && if cloud then active.cloud < p.maxCloud else active.local < p.maxLocal
  }

  function Taken(slots: Slots, cloud: bool): Slots {
    if cloud then Slots(slots.total + 1, slots.local, slots.cloud + 1)
    else Slots(slots.total + 1, slots.local + 1, slots.cloud)
  }

  function GivenBack(slots: Slots, cloud: bool): Slots {
    if cloud then Slots(Max(0, slots.total - 1), slots.local, Max(0, slots.cloud - 1))
    else Slots(Max(0, slots.total - 1), Max(0, slots.local - 1), slots.cloud)
  }

  function StartStep(p: Policy, s: State, cloud: bool): State {
    if CanStart(p, cloud, s.slots) then s.(slots := Taken(s.slots, cloud), calls := s.calls + [Call(cloud, Waiting)]) else s
  }

  function SetPhase(s: State, id: nat, phase: Phase): State
    requires id < |s.calls|
  {
    s.(calls := s.calls[id := s.calls[id].(phase := phase)])
  }

  function Unlock(s: State, id: nat): Option<nat> {
    if s.lock == Some(id) then None else s.lock
  }

  /** The end of the slot's context, however the call ended. */
  function FinishStep(s: State, id: nat): State {
    if id >= |s.calls| || s.calls[id].phase.Released? then s
    else SetPhase(s, id, Released).(slots := GivenBack(s.slots, s.calls[id].cloud), lock := Unlock(s, id))
  }

  // ----- prices -----

  /** `price or default`. */
  function PriceOr(price: real, default: real): real {
    if price != 0.0 then price else default
  }

  function CostAt(tokens: int, price: real): real {
    tokens as real * price / 1000000.0
  }

  function Cost(cfg: Config, input: int, output: int, q: Quote): real {
    CostAt(input, PriceOr(q.inputPrice, cfg.inputPrice)) + CostAt(output, PriceOr(q.outputPrice, cfg.outputPrice))
  }

  function Estimate(cfg: Config, q: Quote): real {
    Cost(cfg, Max(q.input, 0), Max(q.output, 0), q)
  }

  // ----- the budget gate -----

  datatype Window = Daily | Monthly

  function Spent(usage: seq<Usage>, w: Window, from: nat): real {
    if usage == [] then 0.0
    else
      var n := |usage| - 1;
      var at := if w.Daily? then usage[n].day else usage[n].month;
      Spent(usage[..n], w, from) + if at >= from then usage[n].cost else 0.0
  }

  function Used(s: State, w: Window): real {
    Spent(s.ledger.usage, w, if w.Daily? then s.day else s.month)
  }

  function Cap(cfg: Config, w: Window): real {
    if w.Daily? then cfg.dailyUsd else cfg.monthlyUsd
  }

  function Preflight(cfg: Config, q: Quote): Option<Reason> {
    if 0 < cfg.perTurn < 1 then Some(CallCapZero)
    else if cfg.dailyUsd == 0.0 && cfg.monthlyUsd == 0.0 then None
    else if cfg.maxInput > 0 && Max(q.input, 0) > cfg.maxInput then Some(InputTokenCap)
    else if cfg.maxOutput > 0 && Max(q.output, 0) > cfg.maxOutput then Some(OutputTokenCap)
    else None
  }

  function Count<K>(m: map<K, nat>, k: K): nat {
    if k in m then m[k] else 0
  }

  predicate Exhausted(cap: int, calls: nat) {
    cap > 0 && calls >= cap
  }

  predicate OverCap(cfg: Config, w: Window, used: real, estimate: real) {
    Cap(cfg, w) > 0.0 && used + estimate > Cap(cfg, w)
  }

  function CapReason(cfg: Config, s: State, session: string, day: nat, month: nat, q: Quote): Option<Reason> {
    if Exhausted(cfg.perSession, Count(s.ledger.sessions, session)) then Some(SessionCap)
    else if Exhausted(cfg.perDay, Count(s.ledger.days, day)) then Some(DayCap)
    else if Exhausted(cfg.perMonth, Count(s.ledger.months, month)) then Some(MonthCap)
    else if OverCap(cfg, Daily, Used(s, Daily), Estimate(cfg, q)) then Some(DailyUsd)
    else if OverCap(cfg, Monthly, Used(s, Monthly), Estimate(cfg, q)) then Some(MonthlyUsd)
    else None
  }

  function SessionKey(session: Option<string>): string {
    if session.None? || session.value == "" then "anonymous" else session.value
  }

  function EnterReason(cfg: Config, s: State, q: Quote, store: Store, blind: bool): Option<Reason> {
    if !cfg.enabled then Some(Disabled)
    else if Preflight(cfg, q).Some? then Preflight(cfg, q)
    else if store != Ready then Some(StoreUnavailable)
    else if s.ledger.error && !blind then Some(AccountingBlocked)
    else None
  }

  predicate MayEnter(s: State, id: nat) {
    id < |s.calls| && s.calls[id].cloud && s.calls[id].phase.Waiting? && s.lock.None?
  }

  function EnterStep(cfg: Config, s: State, id: nat, session: Option<string>, q: Quote, store: Store, blind: bool): State {
    if !MayEnter(s, id) then s
    else if EnterReason(cfg, s, q, store, blind).Some? then SetPhase(s, id, Settled)
    else SetPhase(s, id, Checking(q, SessionKey(session), s.day, s.month)).(lock := Some(id))
  }

  function ReadStep(cfg: Config, s: State, id: nat): State {
    if id >= |s.calls| || !s.calls[id].phase.Checking? then s
    else
      var p := s.calls[id].phase;
      if CapReason(cfg, s, p.session, p.day, p.month, p.quote).Some? then SetPhase(s, id, Settled).(lock := Unlock(s, id))
      else SetPhase(s, id, Pending(p.quote, p.session, p.day, p.month))
  }

  function CommitStep(s: State, id: nat): State {
    if id >= |s.calls| || !s.calls[id].phase.Pending? then s
    else
      var p := s.calls[id].phase;
      SetPhase(s, id, InFlight(p.quote)).(ledger := Granted(s.ledger, Grant(p.session, p.day, p.month)), lock := Unlock(s, id))
  }

  function Granted(l: Ledger, g: Grant): Ledger {
    l.(sessions := l.sessions[g.session := Count(l.sessions, g.session) + 1],
       days := l.days[g.day := Count(l.days, g.day) + 1],
       months := l.months[g.month := Count(l.months, g.month) + 1],
       grants := l.grants + [g])
  }

  /** `_set_accounting_block`. */
  function Blocked(l: Ledger, noted: bool): Ledger {
    l.(error := l.error || noted)
  }

  function ReserveFailStep(s: State, id: nat, late: bool, noted: bool): State {
    if id >= |s.calls| || !(s.calls[id].phase.Checking? || s.calls[id].phase.Pending?) then s
    else
      var p := s.calls[id].phase;
      var l := if late && p.Pending? then Granted(s.ledger, Grant(p.session, p.day, p.month)) else s.ledger;
      SetPhase(s, id, Settled).(lock := Unlock(s, id), ledger := Blocked(l, noted))
  }

  function RecordStep(cfg: Config, s: State, id: nat, input: Option<int>, output: Option<int>, store: Store, noted: bool): State {
    if id >= |s.calls| || !s.calls[id].phase.InFlight? then s
    else
      var done := SetPhase(s, id, Settled);
      if input.None? || output.None? || input.value < 0 || output.value < 0 then done.(ledger := Blocked(s.ledger, noted))
      else if store.Unavailable? then done
      else if store.Broken? then done.(ledger := Blocked(s.ledger, noted))
      else
        var cost := Cost(cfg, input.value, output.value, s.calls[id].phase.quote);
        var paid := s.ledger.(usage := s.ledger.usage + [Usage(s.day, s.month, cost)]);
        done.(ledger := if store.BrokenLate? then Blocked(paid, noted) else paid)
  }

  function ProviderFailStep(s: State, id: nat): State {
    if id >= |s.calls| || !s.calls[id].phase.InFlight? then s else SetPhase(s, id, Settled)
  }

  function Apply(p: Policy, cfg: Config, s: State, e: Event): State {
    match e
    case Start(cloud) => StartStep(p, s, cloud)
    case ReserveEnter(id, session, quote, store, blind) => EnterStep(cfg, s, id, session, quote, store, blind)
    case ReserveRead(id) => ReadStep(cfg, s, id)
    case ReserveCommit(id) => CommitStep(s, id)
    case ReserveFail(id, late, noted) => ReserveFailStep(s, id, late, noted)
    case Record(id, input, output, store, noted) => RecordStep(cfg, s, id, input, output, store, noted)
    case ProviderFails(id) => ProviderFailStep(s, id)
    case Finish(id) => FinishStep(s, id)
    case SetBlock => if cfg.enabled then s.(ledger := Blocked(s.ledger, true)) else s
    case ClearBlock => if cfg.enabled then s.(ledger := s.ledger.(error := false)) else s
    case Tick(day, month) => if day >= s.day && month >= s.month then s.(day := day, month := month) else s
  }

  function Run(p: Policy, cfg: Config, s: State, events: seq<Event>): State
    decreases events
  {
    if events == [] then s else Run(p, cfg, Apply(p, cfg, s, events[0]), events[1..])
  }

  lemma {:induction false} RunConcat(p: Policy, cfg: Config, s: State, a: seq<Event>, b: seq<Event>)
    ensures Run(p, cfg, s, a + b) == Run(p, cfg, Run(p, cfg, s, a), b)
    decreases a
  {
    if a == [] {
      assert a + b == b;
    } else {
      assert (a + b)[1..] == a[1..] + b;
      RunConcat(p, cfg, Apply(p, cfg, s, a[0]), a[1..], b);
    }
  }

  lemma RunNext(p: Policy, cfg: Config, s: State, trace: seq<Event>, e: Event)
    ensures Run(p, cfg, s, trace + [e]) == Apply(p, cfg, Run(p, cfg, s, trace), e)
  {
    RunConcat(p, cfg, s, trace, [e]);
    assert Run(p, cfg, Run(p, cfg, s, trace), [e]) == Run(p, cfg, Apply(p, cfg, Run(p, cfg, s, trace), e), []);
  }
}
