/** What an accounting block lets through: exactly which reservations can be granted
    after it and before it is cleared, when the look at the block raises, and when
    the block was never written. */
module SpendBlocks {
  import opened Text
  import opened SpendControl
  import opened SpendRuns
  import opened SpendBounds

  predicate FitsAlone(cfg: Config, q: Quote) {
    && (Cap(cfg, Daily) > 0.0 ==> Est(cfg)(q) <= Cap(cfg, Daily))
    && (Cap(cfg, Monthly) > 0.0 ==> Est(cfg)(q) <= Cap(cfg, Monthly))
  }

  /** A reservation past the block's check that can still be granted: it has read
      the counts and is about to commit, or it has yet to read them, has room under
      the call caps and asks for no more than an unspent window allows. */
  predicate MayStillGrant(cfg: Config, s: State) {
    && s.lock.Some? && s.lock.value < |s.calls|
    && var c := s.calls[s.lock.value].phase;
       c.Pending? || (c.Checking? && HasRoom(cfg, s.ledger, c) && FitsAlone(cfg, c.quote))
  }

  ghost predicate PastUsage(s: State) {
    forall i :: 0 <= i < |s.ledger.usage| ==> s.ledger.usage[i].day <= s.day && s.ledger.usage[i].month <= s.month
  }

  ghost predicate BlockInv(s: State) {
    LockOk(s) && CostsOk(s.ledger.usage) && PastUsage(s)
  }

  lemma UsageGrows(p: Policy, cfg: Config, s: State, e: Event, c: real)
    requires CostsOk(s.ledger.usage) && PastUsage(s) && Honest(cfg, s, e, c)
    ensures CostsOk(Apply(p, cfg, s, e).ledger.usage) && PastUsage(Apply(p, cfg, s, e))
  {
    var s' := Apply(p, cfg, s, e);
    if !e.Record? {
      UsageStands(p, cfg, s, e);
    } else if s'.ledger.usage != s.ledger.usage {
      var cost := Cost(cfg, e.input.value, e.output.value, s.calls[e.id].phase.quote);
      assert s'.ledger.usage == s.ledger.usage + [Usage(s.day, s.month, cost)];
    }
  }

  lemma {:induction false} BlockInvRun(p: Policy, cfg: Config, s: State, events: seq<Event>, c: real)
    requires BlockInv(s) && HonestRun(p, cfg, s, events, c)
    ensures BlockInv(Run(p, cfg, s, events))
    decreases events
  {
    if events != [] {
      LockStep(p, cfg, s, events[0]);
      UsageGrows(p, cfg, s, events[0], c);
      BlockInvRun(p, cfg, Apply(p, cfg, s, events[0]), events[1..], c);
    }
  }

  // ----- what cannot be granted -----

  lemma ReadNeedsRoom(cfg: Config, s: State, id: nat)
    requires CostsOk(s.ledger.usage) && id < |s.calls| && s.calls[id].phase.Checking?
    ensures ReadStep(cfg, s, id).calls[id].phase.Pending? ==>
              HasRoom(cfg, s.ledger, s.calls[id].phase) && FitsAlone(cfg, s.calls[id].phase.quote)
  {
    SpentNonNegative(s.ledger.usage, Daily, s.day);
    SpentNonNegative(s.ledger.usage, Monthly, s.month);
  }

  lemma StuckStep(p: Policy, cfg: Config, s: State, e: Event)
    requires s.ledger.error && BlockInv(s) && !MayStillGrant(cfg, s) && !e.ClearBlock? && !Blind(e)
    ensures var s' := Apply(p, cfg, s, e);
            s'.ledger.error && !MayStillGrant(cfg, s') && s'.ledger.grants == s.ledger.grants
  {
    OnlyCommitsCount(p, cfg, s, e);
    if e.ReserveRead? && e.id < |s.calls| && s.calls[e.id].phase.Checking? {
      ReadNeedsRoom(cfg, s, e.id);
    }
    LockHolderStands(p, cfg, s, e);
  }

  predicate Blind(e: Event) {
    e.ReserveEnter? && e.blind
  }

  /** Whoever holds the lock afterwards held it before, in the same phase, unless it
      has just read. */
  lemma LockHolderStands(p: Policy, cfg: Config, s: State, e: Event)
    requires s.ledger.error && LockOk(s) && !Blind(e)
    ensures var s' := Apply(p, cfg, s, e);
            s'.lock.Some? ==>
              && s'.lock == s.lock && s.lock.value < |s.calls| <= |s'.calls|
              && (s'.calls[s.lock.value] == s.calls[s.lock.value] || e == ReserveRead(s.lock.value))
  {
  }

  lemma {:induction false} StuckRun(p: Policy, cfg: Config, s: State, events: seq<Event>, c: real)
    requires s.ledger.error && BlockInv(s) && !MayStillGrant(cfg, s)
    requires NoClear(events) && BlindEntries(events) == 0 && HonestRun(p, cfg, s, events, c)
    ensures Run(p, cfg, s, events).ledger.grants == s.ledger.grants
    decreases events
  {
    if events != [] {
      StuckStep(p, cfg, s, events[0]);
      LockStep(p, cfg, s, events[0]);
      UsageGrows(p, cfg, s, events[0], c);
      assert NoClear(events[1..]);
      StuckRun(p, cfg, Apply(p, cfg, s, events[0]), events[1..], c);
    }
  }

  // ----- what can -----

  lemma {:induction false} NothingSpentLater(usage: seq<Usage>, w: Window, from: nat)
    requires forall i :: 0 <= i < |usage| ==> usage[i].day < from && usage[i].month < from
    ensures Spent(usage, w, from) == 0.0
  {
    if usage != [] {
      NothingSpentLater(usage[..|usage| - 1], w, from);
    }
  }

  function Later(s: State): nat {
    Max(s.day, s.month) + 1
  }

  /** Left alone until the windows have turned, the holder is granted. */
  function Patience(s: State, h: nat): seq<Event> {
    [Tick(Later(s), Later(s)), ReserveRead(h), ReserveCommit(h)]
  }

  lemma PatienceIsGranted(p: Policy, cfg: Config, s: State, h: nat)
    requires BlockInv(s) && h < |s.calls| && s.calls[h].phase.Checking?
    requires HasRoom(cfg, s.ledger, s.calls[h].phase) && FitsAlone(cfg, s.calls[h].phase.quote)
    ensures |CommitStep(ReadStep(cfg, Apply(p, cfg, s, Tick(Later(s), Later(s))), h), h).ledger.grants| == |s.ledger.grants| + 1
  {
    var s1 := Apply(p, cfg, s, Tick(Later(s), Later(s)));
    NothingSpentLater(s.ledger.usage, Daily, Later(s));
    NothingSpentLater(s.ledger.usage, Monthly, Later(s));
    assert Used(s1, Daily) == 0.0 && Used(s1, Monthly) == 0.0;
    var c := s.calls[h].phase;
    assert CapReason(cfg, s1, c.session, c.day, c.month, c.quote).None?;
  }

  lemma {:induction false} IdleIsSighted(events: seq<Event>)
    requires forall e :: e in events ==> !e.ReserveEnter?
    ensures BlindEntries(events) == 0
  {
    if events != [] {
      IdleIsSighted(events[1..]);
    }
  }

  /** Events that neither ask for a reservation nor record a bill are honest. */
  lemma {:induction false} IdleIsHonest(p: Policy, cfg: Config, s: State, events: seq<Event>, c: real)
    requires forall e :: e in events ==> !e.ReserveEnter? && !e.Record?
    ensures HonestRun(p, cfg, s, events, c)
    decreases events
  {
    if events != [] {
      IdleIsHonest(p, cfg, Apply(p, cfg, s, events[0]), events[1..], c);
    }
  }

  lemma StillGranted(p: Policy, cfg: Config, s: State, c: real) returns (after: seq<Event>)
    requires BlockInv(s) && MayStillGrant(cfg, s)
    ensures NoClear(after) && BlindEntries(after) == 0 && HonestRun(p, cfg, s, after, c)
    ensures |Run(p, cfg, s, after).ledger.grants| > |s.ledger.grants|
  {
    var h := s.lock.value;
    if s.calls[h].phase.Pending? {
      after := [ReserveCommit(h)];
      RunNext(p, cfg, s, [], ReserveCommit(h));
      assert [] + [ReserveCommit(h)] == after;
    } else {
      after := Patience(s, h);
      PatienceIsGranted(p, cfg, s, h);
      PatienceRuns(p, cfg, s, h);
    }
    IdleIsHonest(p, cfg, s, after, c);
    IdleIsSighted(after);
  }

  lemma PatienceRuns(p: Policy, cfg: Config, s: State, h: nat)
    ensures Run(p, cfg, s, Patience(s, h)) == CommitStep(ReadStep(cfg, Apply(p, cfg, s, Tick(Later(s), Later(s))), h), h)
  {
    var t := Tick(Later(s), Later(s));
    RunNext(p, cfg, s, [t, ReserveRead(h)], ReserveCommit(h));
    RunNext(p, cfg, s, [t], ReserveRead(h));
    RunNext(p, cfg, s, [], t);
    assert [] + [t] == [t] && [t] + [ReserveRead(h)] == [t, ReserveRead(h)];
    assert [t, ReserveRead(h)] + [ReserveCommit(h)] == Patience(s, h);
  }

  // ----- exactly what is granted -----

  /** An honest continuation that does not clear the block, in which every look at it
      succeeds, and that grants. */
  ghost predicate Grants(p: Policy, cfg: Config, s: State, after: seq<Event>, c: real) {
    && HonestRun(p, cfg, s, after, c) && NoClear(after) && BlindEntries(after) == 0
    && |Run(p, cfg, s, after).ledger.grants| > |s.ledger.grants|
  }

  lemma GrantIffFrom(p: Policy, cfg: Config, s: State, c: real)
    requires BlockInv(s) && s.ledger.error
    ensures (exists after :: Grants(p, cfg, s, after, c)) <==> MayStillGrant(cfg, s)
  {
    if MayStillGrant(cfg, s) {
      var after := StillGranted(p, cfg, s, c);
      assert Grants(p, cfg, s, after, c);
    } else {
      forall after ensures !Grants(p, cfg, s, after, c) {
        if HonestRun(p, cfg, s, after, c) && NoClear(after) && BlindEntries(after) == 0 {
          StuckRun(p, cfg, s, after, c);
        }
      }
    }
  }

  /** A block is not immediate. In a blocked state that an honest run reaches, some
      honest continuation that does not clear it and always sees it grants a
      reservation exactly when one already past the check may still be granted. */
  lemma BlockedGrantIff(p: Policy, cfg: Config, before: seq<Event>, c: real)
    requires HonestRun(p, cfg, EMPTY, before, c) && Run(p, cfg, EMPTY, before).ledger.error
    ensures var s := Run(p, cfg, EMPTY, before);
            (exists after :: Grants(p, cfg, s, after, c)) <==> MayStillGrant(cfg, s)
  {
    BlockInvRun(p, cfg, EMPTY, before, c);
    GrantIffFrom(p, cfg, Run(p, cfg, EMPTY, before), c);
  }

  // ----- a look at the block that raises -----

  /** A call that reaches a blocked gate while the lock is free can be granted exactly
      when its own look at the block raised, nothing else turns it away at the door,
      and it has room under the call caps and an estimate that fits an unspent window. */
  lemma BlindEntryIff(p: Policy, cfg: Config, before: seq<Event>, e: Event, c: real)
    requires HonestRun(p, cfg, EMPTY, before + [e], c) && Run(p, cfg, EMPTY, before).ledger.error
    requires e.ReserveEnter? && MayEnter(Run(p, cfg, EMPTY, before), e.id)
    ensures var s := Run(p, cfg, EMPTY, before);
            (exists after :: Grants(p, cfg, Run(p, cfg, EMPTY, before + [e]), after, c))
            <==> && e.blind && EnterReason(cfg, s, e.quote, e.store, true).None?
                 && HasRoom(cfg, s.ledger, Checking(e.quote, SessionKey(e.session), s.day, s.month)) && FitsAlone(cfg, e.quote)
  {
    RunNext(p, cfg, EMPTY, before, e);
    BlockInvRun(p, cfg, EMPTY, before + [e], c);
    GrantIffFrom(p, cfg, Run(p, cfg, EMPTY, before + [e]), c);
  }

  // ----- a block that is never written -----

  /** What makes `record_usage` ask for a block. */
  predicate Unaccountable(input: Option<int>, output: Option<int>, store: Store) {
    || input.None? || output.None? || input.value < 0 || output.value < 0
    || store.Broken? || store.BrokenLate?
  }

  lemma DeniedReserves(p: Policy, cfg: Config, s: State, id: nat, q: Quote)
    requires MayEnter(s, id) && EnterReason(cfg, s, q, Ready, false).Some?
    ensures Run(p, cfg, s, Reserve(id, q)).ledger == s.ledger
  {
    var s1 := EnterStep(cfg, s, id, None, q, Ready, false);
    assert s1.calls[id].phase == Settled;
    assert ReadStep(cfg, s1, id) == s1 && CommitStep(s1, id) == s1;
    ThreeSteps(p, cfg, s, ReserveEnter(id, None, q, Ready, false), ReserveRead(id), ReserveCommit(id));
  }

  /** After a response that cannot be accounted for, the next reservation is refused
      exactly when the block could be written; otherwise it is granted as if nothing
      had happened. */
  lemma LostBlockIff(p: Policy, cfg: Config, s: State, id: nat, input: Option<int>, output: Option<int>, store: Store, noted: bool,
                     next: nat, q: Quote)
    requires id < |s.calls| && s.calls[id].phase.InFlight? && MayEnter(s, next) && !s.ledger.error
    requires Unaccountable(input, output, store) && EnterReason(cfg, s, q, Ready, false).None?
    requires CapReason(cfg, Apply(p, cfg, s, Record(id, input, output, store, noted)), "anonymous", s.day, s.month, q).None?
    ensures var s' := Run(p, cfg, s, [Record(id, input, output, store, noted)] + Reserve(next, q));
            |s'.ledger.grants| == |s.ledger.grants| + (if noted then 0 else 1)
  {
    var record := Record(id, input, output, store, noted);
    var s1 := Apply(p, cfg, s, record);
    RunConcat(p, cfg, s, [record], Reserve(next, q));
    RunNext(p, cfg, s, [], record);
    assert [] + [record] == [record];
    OnlyCommitsCount(p, cfg, s, record);
    assert s1.ledger.error == noted && MayEnter(s1, next);
    if noted {
      DeniedReserves(p, cfg, s1, next, q);
    } else {
      ReserveGrants(p, cfg, s1, next, q);
    }
  }
}
