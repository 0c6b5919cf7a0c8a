/** How far spending can really go: for any number of calls at once an honest run
    reaches the overshoot bound, and the cap alone is kept exactly when the policy
    lets one cloud call run at a time. */
module SpendBounds {
  import opened Text
  import opened SpendControl
  import opened SpendRuns

  function Reserve(id: nat, q: Quote): seq<Event> {
    [ReserveEnter(id, None, q, Ready, false), ReserveRead(id), ReserveCommit(id)]
  }

  lemma ThreeSteps(p: Policy, cfg: Config, s: State, a: Event, b: Event, c: Event)
    ensures Run(p, cfg, s, [a, b, c]) == Apply(p, cfg, Apply(p, cfg, Apply(p, cfg, s, a), b), c)
  {
    RunNext(p, cfg, s, [a, b], c);
    RunNext(p, cfg, s, [a], b);
    RunNext(p, cfg, s, [], a);
    assert [] + [a] == [a] && [a] + [b] == [a, b] && [a, b] + [c] == [a, b, c];
  }

  /** The gate lets such calls in, and `w` is the window that stops them: no call
      caps, a positive estimate within the cap, and no tighter cap on the other
      window. */
  ghost predicate OpenGate(cfg: Config, q: Quote, w: Window) {
    && cfg.enabled && Preflight(cfg, q).None?
    && cfg.perSession <= 0 && cfg.perDay <= 0 && cfg.perMonth <= 0
    && 0.0 < Est(cfg)(q) <= Cap(cfg, w)
    && forall v: Window :: Cap(cfg, v) > 0.0 ==> Cap(cfg, v) >= Cap(cfg, w)
  }

  function Copies<T>(n: nat, x: T): seq<T> {
    seq(n, _ => x)
  }

  function Spender(q: Quote): Call {
    Call(true, InFlight(q))
  }

  function Row(est: real): Usage {
    Usage(0, 0, est)
  }

  /** `n` calls were paid for and finished, `j` more are in flight, all in the first
      day and month and at the same price. */
  ghost predicate Filled(s: State, q: Quote, est: real, n: nat, j: nat) {
    && s.calls == Copies(n, Call(true, Released)) + Copies(j, Spender(q))
    && s.slots == Slots(j, 0, j) && s.ledger.usage == Copies(n, Row(est))
    && !s.ledger.error && s.lock == None && s.day == 0 && s.month == 0
  }

  lemma CopiesNext<T>(n: nat, x: T)
    ensures Copies(n + 1, x) == Copies(n, x) + [x]
  {
  }

  lemma {:induction false} CopiesSpent(n: nat, est: real, w: Window)
    ensures Spent(Copies(n, Row(est)), w, 0) == Times(n, est)
  {
    if n > 0 {
      CopiesSpent(n - 1, est, w);
      CopiesNext(n - 1, Row(est));
      SpentAppend(Copies(n - 1, Row(est)), Row(est), w, 0);
      TimesNext(n - 1, est);
    }
  }

  lemma TimesNext(n: nat, c: real)
    ensures Times(n + 1, c) == Times(n, c) + c && Times(0, c) == 0.0 && Times(1, c) == c
  {
  }

  lemma {:induction false} CopiesWeigh(est: Quote -> real, n: nat, j: nat, q: Quote)
    ensures Weight(InFlightCost(est), Copies(n, Call(true, Released)) + Copies(j, Spender(q))) == Times(j, est(q))
    decreases n + j
  {
    var done := Copies(n, Call(true, Released));
    if j > 0 {
      CopiesWeigh(est, n, j - 1, q);
      CopiesNext(j - 1, Spender(q));
      FoldsAppend(IsInFlight(), InFlightCost(est), done + Copies(j - 1, Spender(q)), Spender(q));
      assert done + Copies(j, Spender(q)) == done + Copies(j - 1, Spender(q)) + [Spender(q)];
      TimesNext(j - 1, est(q));
    } else if n > 0 {
      CopiesWeigh(est, n - 1, 0, q);
      CopiesNext(n - 1, Call(true, Released));
      FoldsAppend(IsInFlight(), InFlightCost(est), Copies(n - 1, Call(true, Released)), Call(true, Released));
      assert done + Copies(0, Spender(q)) == Copies(n - 1, Call(true, Released)) + Copies(0, Spender(q)) + [Call(true, Released)];
      TimesNext(0, est(q));
    } else {
      TimesNext(0, est(q));
    }
  }

  lemma FilledExposure(est: Quote -> real, s: State, q: Quote, n: nat, j: nat, w: Window)
    requires Filled(s, q, est(q), n, j)
    ensures Exposure(est, s, w) == Times(n, est(q)) + Times(j, est(q))
  {
    CopiesSpent(n, est(q), w);
    CopiesWeigh(est, n, j, q);
  }

  predicate PaidFor(s: State, est: real, n: nat) {
    s.ledger.usage == Copies(n, Row(est)) && !s.ledger.error && s.day == 0 && s.month == 0
  }

  lemma FitsCap(cfg: Config, s: State, q: Quote, v: Window, w: Window)
    requires OpenGate(cfg, q, w) && Used(s, v) + Est(cfg)(q) <= Cap(cfg, w)
    ensures !OverCap(cfg, v, Used(s, v), Estimate(cfg, q))
  {
  }

  /** A further reservation passes while what is recorded leaves room for it. */
  lemma StillPasses(cfg: Config, s: State, q: Quote, n: nat, w: Window)
    requires OpenGate(cfg, q, w) && PaidFor(s, Est(cfg)(q), n) && Times(n + 1, Est(cfg)(q)) <= Cap(cfg, w)
    ensures EnterReason(cfg, s, q, Ready, false).None?
    ensures CapReason(cfg, s, "anonymous", s.day, s.month, q).None?
  {
    CopiesSpent(n, Est(cfg)(q), Daily);
    CopiesSpent(n, Est(cfg)(q), Monthly);
    TimesNext(n, Est(cfg)(q));
    FitsCap(cfg, s, q, Daily, w);
    FitsCap(cfg, s, q, Monthly, w);
  }

  lemma ReserveGrants(p: Policy, cfg: Config, s: State, id: nat, q: Quote)
    requires MayEnter(s, id) && EnterReason(cfg, s, q, Ready, false).None?
    requires CapReason(cfg, s, "anonymous", s.day, s.month, q).None?
    ensures Run(p, cfg, s, Reserve(id, q))
         == SetPhase(s, id, InFlight(q)).(ledger := Granted(s.ledger, Grant("anonymous", s.day, s.month)))
  {
    var s1 := EnterStep(cfg, s, id, None, q, Ready, false);
    assert s1 == SetPhase(s, id, Checking(q, "anonymous", s.day, s.month)).(lock := Some(id));
    var s2 := ReadStep(cfg, s1, id);
    assert s2 == SetPhase(s, id, Pending(q, "anonymous", s.day, s.month)).(lock := Some(id));
    var s3 := CommitStep(s2, id);
    assert s3.calls == SetPhase(s, id, InFlight(q)).calls;
    ThreeSteps(p, cfg, s, ReserveEnter(id, None, q, Ready, false), ReserveRead(id), ReserveCommit(id));
  }

  /** One more call started and granted. */
  function Admit(id: nat, q: Quote): seq<Event> {
    [Start(true)] + Reserve(id, q)
  }

  lemma StartTakes(p: Policy, s: State, q: Quote, est: real, n: nat, j: nat)
    requires Filled(s, q, est, n, j) && j < Width(p)
    ensures StartStep(p, s, true) == s.(slots := Slots(j + 1, 0, j + 1), calls := s.calls + [Call(true, Waiting)])
  {
  }

  lemma AdmitFills(p: Policy, cfg: Config, s: State, q: Quote, n: nat, j: nat, w: Window)
    requires OpenGate(cfg, q, w) && Times(n + 1, Est(cfg)(q)) <= Cap(cfg, w)
    requires Filled(s, q, Est(cfg)(q), n, j) && j < Width(p)
    ensures Filled(Run(p, cfg, s, Admit(n + j, q)), q, Est(cfg)(q), n, j + 1)
  {
    var id, s1 := n + j, StartStep(p, s, true);
    StartTakes(p, s, q, Est(cfg)(q), n, j);
    assert |s.calls| == id;
    StillPasses(cfg, s1, q, n, w);
    ReserveGrants(p, cfg, s1, id, q);
    RunConcat(p, cfg, s, [Start(true)], Reserve(id, q));
    RunNext(p, cfg, s, [], Start(true));
    assert [] + [Start(true)] == [Start(true)];
    CopiesNext(j, Spender(q));
    assert s1.calls[id := Spender(q)] == s.calls + [Spender(q)];
    assert s.calls + [Spender(q)] == Copies(n, Call(true, Released)) + Copies(j + 1, Spender(q));
  }

  /** The call is billed for exactly what it reserved, and its slot given back. */
  function Settle(id: nat, q: Quote): seq<Event> {
    [Record(id, Some(Max(q.input, 0)), Some(Max(q.output, 0)), Ready, false), Finish(id)]
  }

  lemma TwoSteps(p: Policy, cfg: Config, s: State, a: Event, b: Event)
    ensures Run(p, cfg, s, [a, b]) == Apply(p, cfg, Apply(p, cfg, s, a), b)
  {
    RunNext(p, cfg, s, [a], b);
    RunNext(p, cfg, s, [], a);
    assert [] + [a] == [a] && [a] + [b] == [a, b];
  }

  lemma RecordPays(cfg: Config, s: State, id: nat, q: Quote)
    requires id < |s.calls| && s.calls[id] == Spender(q)
    ensures RecordStep(cfg, s, id, Some(Max(q.input, 0)), Some(Max(q.output, 0)), Ready, false)
         == SetPhase(s, id, Settled).(ledger := s.ledger.(usage := s.ledger.usage + [Usage(s.day, s.month, Est(cfg)(q))]))
  {
  }

  lemma SettlePays(p: Policy, cfg: Config, s: State, q: Quote, n: nat)
    requires Filled(s, q, Est(cfg)(q), n, 1)
    ensures Filled(Run(p, cfg, s, Settle(n, q)), q, Est(cfg)(q), n + 1, 0)
  {
    var done := Copies(n, Call(true, Released));
    assert s.calls == done + [Spender(q)] && s.calls[n] == Spender(q);
    RecordPays(cfg, s, n, q);
    var s1 := RecordStep(cfg, s, n, Some(Max(q.input, 0)), Some(Max(q.output, 0)), Ready, false);
    TwoSteps(p, cfg, s, Settle(n, q)[0], Finish(n));
    CopiesNext(n, Call(true, Released));
    CopiesNext(n, Row(Est(cfg)(q)));
    var s2 := FinishStep(s1, n);
    assert s2.calls == done + [Call(true, Released)] + Copies(0, Spender(q));
  }

  // ----- such runs are honest -----

  lemma {:induction false} HonestConcat(p: Policy, cfg: Config, s: State, a: seq<Event>, b: seq<Event>, c: real)
    requires HonestRun(p, cfg, s, a, c) && HonestRun(p, cfg, Run(p, cfg, s, a), b, c)
    ensures HonestRun(p, cfg, s, a + b, c)
    decreases a
  {
    if a == [] {
      assert a + b == b;
    } else {
      assert (a + b)[1..] == a[1..] + b;
      HonestConcat(p, cfg, Apply(p, cfg, s, a[0]), a[1..], b, c);
    }
  }

  predicate Plain(e: Event, q: Quote) {
    !e.Record? && (e.ReserveEnter? ==> e.quote == q)
  }

  lemma {:induction false} PlainIsHonest(p: Policy, cfg: Config, s: State, events: seq<Event>, q: Quote)
    requires 0.0 <= Est(cfg)(q) && forall e :: e in events ==> Plain(e, q)
    ensures HonestRun(p, cfg, s, events, Est(cfg)(q))
    decreases events
  {
    if events != [] {
      assert Plain(events[0], q);
      PlainIsHonest(p, cfg, Apply(p, cfg, s, events[0]), events[1..], q);
    }
  }

  lemma SettleIsHonest(p: Policy, cfg: Config, s: State, q: Quote, n: nat)
    requires 0.0 <= Est(cfg)(q) && n < |s.calls| && s.calls[n] == Spender(q)
    ensures HonestRun(p, cfg, s, Settle(n, q), Est(cfg)(q))
  {
    var record := Settle(n, q)[0];
    assert Settle(n, q)[1..] == [Finish(n)];
    assert Honest(cfg, s, record, Est(cfg)(q));
    PlainIsHonest(p, cfg, Apply(p, cfg, s, record), [Finish(n)], q);
  }

  /** One call after the other, each paid for before the next begins. */
  function PayFor(n: nat, q: Quote): seq<Event> {
    if n == 0 then [] else PayFor(n - 1, q) + (Admit(n - 1, q) + Settle(n - 1, q))
  }

  lemma {:induction false} PaidRun(p: Policy, cfg: Config, q: Quote, n: nat, w: Window)
    requires OpenGate(cfg, q, w) && Width(p) >= 1 && Times(n, Est(cfg)(q)) <= Cap(cfg, w)
    ensures Filled(Run(p, cfg, EMPTY, PayFor(n, q)), q, Est(cfg)(q), n, 0)
    ensures HonestRun(p, cfg, EMPTY, PayFor(n, q), Est(cfg)(q))
  {
    var est := Est(cfg)(q);
    if n > 0 {
      TimesNext(n - 1, est);
      PaidRun(p, cfg, q, n - 1, w);
      var s := Run(p, cfg, EMPTY, PayFor(n - 1, q));
      PaidStep(p, cfg, s, q, n - 1, w);
      RunConcat(p, cfg, EMPTY, PayFor(n - 1, q), Admit(n - 1, q) + Settle(n - 1, q));
      HonestConcat(p, cfg, EMPTY, PayFor(n - 1, q), Admit(n - 1, q) + Settle(n - 1, q), est);
    }
  }

  lemma PaidStep(p: Policy, cfg: Config, s: State, q: Quote, n: nat, w: Window)
    requires OpenGate(cfg, q, w) && Width(p) >= 1 && Times(n + 1, Est(cfg)(q)) <= Cap(cfg, w)
    requires Filled(s, q, Est(cfg)(q), n, 0)
    ensures Filled(Run(p, cfg, s, Admit(n, q) + Settle(n, q)), q, Est(cfg)(q), n + 1, 0)
    ensures HonestRun(p, cfg, s, Admit(n, q) + Settle(n, q), Est(cfg)(q))
  {
    AdmitFills(p, cfg, s, q, n, 0, w);
    var s1 := Run(p, cfg, s, Admit(n, q));
    assert s1.calls[n] == Spender(q);
    SettlePays(p, cfg, s1, q, n);
    RunConcat(p, cfg, s, Admit(n, q), Settle(n, q));
    PlainIsHonest(p, cfg, s, Admit(n, q), q);
    SettleIsHonest(p, cfg, s1, q, n);
    HonestConcat(p, cfg, s, Admit(n, q), Settle(n, q), Est(cfg)(q));
  }

  /** Then `j` calls at once. */
  function Rush(n: nat, j: nat, q: Quote): seq<Event> {
    if j == 0 then PayFor(n, q) else Rush(n, j - 1, q) + Admit(n + j - 1, q)
  }

  lemma {:induction false} RushRun(p: Policy, cfg: Config, q: Quote, n: nat, j: nat, w: Window)
    requires OpenGate(cfg, q, w) && 1 <= Width(p) && j <= Width(p) && Times(n + 1, Est(cfg)(q)) <= Cap(cfg, w)
    ensures Filled(Run(p, cfg, EMPTY, Rush(n, j, q)), q, Est(cfg)(q), n, j)
    ensures HonestRun(p, cfg, EMPTY, Rush(n, j, q), Est(cfg)(q))
  {
    var est := Est(cfg)(q);
    if j == 0 {
      TimesNext(n, est);
      PaidRun(p, cfg, q, n, w);
    } else {
      RushRun(p, cfg, q, n, j - 1, w);
      var s := Run(p, cfg, EMPTY, Rush(n, j - 1, q));
      AdmitFills(p, cfg, s, q, n, j - 1, w);
      RunConcat(p, cfg, EMPTY, Rush(n, j - 1, q), Admit(n + j - 1, q));
      PlainIsHonest(p, cfg, s, Admit(n + j - 1, q), q);
      HonestConcat(p, cfg, EMPTY, Rush(n, j - 1, q), Admit(n + j - 1, q), est);
    }
  }

  lemma TimesAdds(n: nat, j: nat, c: real)
    ensures Times(n, c) + Times(j, c) == Times(n + j, c)
  {
  }

  /** How many whole estimates the cap holds. */
  lemma WholeEstimates(cap: real, est: real) returns (m: nat)
    requires 0.0 < est <= cap
    ensures m >= 1 && Times(m, est) <= cap < Times(m + 1, est)
  {
    var r := cap / est;
    assert r * est == cap && r >= 1.0;
    m := r.Floor;
    assert m as real <= r < (m + 1) as real;
    ScalesUp(m as real, r, est);
    ScalesStrictly(r, (m + 1) as real, est);
  }

  lemma ScalesUp(a: real, b: real, c: real)
    requires a <= b && c > 0.0
    ensures a * c <= b * c
  {
  }

  lemma ScalesStrictly(a: real, b: real, c: real)
    requires a < b && c > 0.0
    ensures a * c < b * c
  {
  }

  /** For every number of calls the policy allows at once, an honest run comes
      within one estimate of the bound, and reaches it when the cap is a whole
      number of estimates. */
  lemma BoundIsReached(p: Policy, cfg: Config, q: Quote, w: Window) returns (events: seq<Event>)
    requires OpenGate(cfg, q, w) && Width(p) >= 1
    ensures HonestRun(p, cfg, EMPTY, events, Est(cfg)(q))
    ensures var est := Est(cfg)(q);
            var exposure := Exposure(Est(cfg), Run(p, cfg, EMPTY, events), w);
            && exposure > Cap(cfg, w) + Slack(p, est) - est
            && ((exists m: nat :: Cap(cfg, w) == Times(m, est)) ==> exposure == Cap(cfg, w) + Slack(p, est))
  {
    var est, k := Est(cfg)(q), Width(p);
    var m := WholeEstimates(Cap(cfg, w), est);
    RushRun(p, cfg, q, m - 1, k, w);
    events := Rush(m - 1, k, q);
    FilledExposure(Est(cfg), Run(p, cfg, EMPTY, events), q, m - 1, k, w);
    TimesAdds(m - 1, k, est);
    TimesAdds(m, k - 1, est);
    TimesNext(m, est);
    forall i: nat | Cap(cfg, w) == Times(i, est) ensures i == m {
      SameTimes(i, m, est);
    }
  }

  lemma SameTimes(i: nat, m: nat, c: real)
    requires c > 0.0 && Times(m, c) <= Times(i, c) < Times(m + 1, c)
    ensures i == m
  {
    if i < m {
      ScalesStrictly(i as real, m as real, c);
    }
    if i > m {
      ScalesUp((m + 1) as real, i as real, c);
    }
  }

  ghost predicate CapKept(p: Policy, cfg: Config, w: Window) {
    forall events, c :: c >= 0.0 && HonestRun(p, cfg, EMPTY, events, c) ==>
      Exposure(Est(cfg), Run(p, cfg, EMPTY, events), w) <= Cap(cfg, w)
  }

  /** The cap alone is kept by every honest run exactly when the policy lets at most
      one cloud call run at a time. */
  lemma CapKeptIff(p: Policy, cfg: Config, q: Quote, w: Window)
    requires OpenGate(cfg, q, w)
    ensures CapKept(p, cfg, w) <==> Width(p) <= 1
  {
    if Width(p) <= 1 {
      forall events, c | c >= 0.0 && HonestRun(p, cfg, EMPTY, events, c)
        ensures Exposure(Est(cfg), Run(p, cfg, EMPTY, events), w) <= Cap(cfg, w)
      {
        OvershootBound(p, cfg, events, w, c);
        TimesNext(0, c);
      }
    } else {
      var est := Est(cfg)(q);
      var events := BoundIsReached(p, cfg, q, w);
      TimesAdds(1, Width(p) - 2, est);
      TimesNext(0, est);
      NotNegative(Width(p) - 2, est);
      assert HonestRun(p, cfg, EMPTY, events, est) && est >= 0.0;
      assert Exposure(Est(cfg), Run(p, cfg, EMPTY, events), w) > Cap(cfg, w);
    }
  }

  lemma NotNegative(n: nat, c: real)
    requires c >= 0.0
    ensures Times(n, c) >= 0.0
  {
  }
}
