/** The router's call path as it is written: take a slot, reserve under the gate's
    lock, call the provider, record the usage, give the slot back. Other calls act
    at every await; while one reserves they find the lock taken. */
module SpendService {
  import opened Text
  import opened SpendControl
  import opened SpendRuns
  import SM = SpendMeaning
  import opened StableSort

  /** How the provider answers: an exception, or a response with or without usage. */
  datatype Reply = Fails | Usage(input: Option<int>, output: Option<int>)

  datatype Decision = Allowed | Refused(reason: Reason) | Failed

  /** Where the gate's store raises during a reservation that got past its checks. */
  datatype Fault = NoFault | AtRead | AtCommit | AfterCommit

  /** What befalls the gate during one call: the store it finds, a look at the block
      that raises, a fault of the reservation, and whether a block it asks for is
      written. */
  datatype Luck = Luck(store: Store, blind: bool, fault: Fault, noted: bool)

  datatype Recording = Recorded | MissingMetadata | InvalidMetadata | NoStore | AccountingFailed

  /** What a reservation decided on the ledger `was` leaves behind. */
  function Outcome(was: Ledger, g: Grant, d: Decision, luck: Luck): Ledger {
    match d
    case Allowed => Granted(was, g)
    case Refused(_) => was
    case Failed => Blocked(if luck.fault == AfterCommit then Granted(was, g) else was, luck.noted)
  }

  /** Call `id` is inside the gate and holds its lock. */
  predicate AtGate(s: State, id: nat) {
    id < |s.calls| && s.calls[id].cloud && (s.calls[id].phase.Checking? || s.calls[id].phase.Pending?) && s.lock == Some(id)
  }

  predicate Touches(e: Event, id: nat) {
    !e.Start? && !e.SetBlock? && !e.ClearBlock? && !e.Tick? && e.id == id
  }

  function Others(id: nat): Event -> bool {
    (e: Event) => !Touches(e, id)
  }

  lemma OtherStands(p: Policy, cfg: Config, s: State, e: Event, id: nat)
    requires LockOk(s) && id < |s.calls| && !Touches(e, id)
    ensures var s' := Apply(p, cfg, s, e);
            && id < |s'.calls| && s'.calls[id] == s.calls[id]
            && (s.lock == Some(id) ==> s'.lock == Some(id) && SameCounters(s.ledger, s'.ledger))
  {
    CallStands(p, cfg, s, e, id);
    if s.lock == Some(id) {
      LockStands(p, cfg, s, e, id);
      OnlyCommitsCount(p, cfg, s, e);
    }
  }

  lemma CallStands(p: Policy, cfg: Config, s: State, e: Event, id: nat)
    requires id < |s.calls| && !Touches(e, id)
    ensures var s' := Apply(p, cfg, s, e); id < |s'.calls| && s'.calls[id] == s.calls[id]
  {
  }

  lemma LockStands(p: Policy, cfg: Config, s: State, e: Event, id: nat)
    requires LockOk(s) && id < |s.calls| && !Touches(e, id) && s.lock == Some(id)
    ensures Apply(p, cfg, s, e).lock == Some(id) && !Counts(s, e)
  {
  }

  lemma {:induction false} OthersStand(p: Policy, cfg: Config, s: State, events: seq<Event>, id: nat)
    requires LockOk(s) && id < |s.calls| && forall e :: e in events ==> !Touches(e, id)
    ensures var s' := Run(p, cfg, s, events);
            && id < |s'.calls| && s'.calls[id] == s.calls[id]
            && (s.lock == Some(id) ==> s'.lock == Some(id) && SameCounters(s.ledger, s'.ledger))
    decreases events
  {
    if events != [] {
      OtherStands(p, cfg, s, events[0], id);
      LockStep(p, cfg, s, events[0]);
      OthersStand(p, cfg, Apply(p, cfg, s, events[0]), events[1..], id);
    }
  }

  lemma Reachable(p: Policy, cfg: Config, trace: seq<Event>)
    ensures LockOk(Run(p, cfg, EMPTY, trace)) && SlotsOk(p, Run(p, cfg, EMPTY, trace))
  {
    ReachableLock(p, cfg, trace);
    SlotsRun(p, cfg, EMPTY, trace);
  }

  class LLMRouter {
    const policy: Policy
    const cfg: Config
    const others: nat -> seq<Event>
    var s: State
    var turn: nat
    ghost var trace: seq<Event>

    ghost predicate Valid()
      reads this
    {
      s == Run(policy, cfg, EMPTY, trace)
    }

    constructor (policy: Policy, cfg: Config, others: nat -> seq<Event>)
      ensures Valid() && s == EMPTY && this.policy == policy && this.cfg == cfg && this.others == others
    {
      this.policy, this.cfg, this.others := policy, cfg, others;
      s, turn, trace := EMPTY, 0, [];
    }

    /** An await inside call `id`: everybody else may act, on anything but `id`. */
    method Await(id: nat)
      requires Valid() && id < |s.calls|
      modifies this
      ensures Valid() && id < |s.calls| && s.calls[id] == old(s).calls[id]
      ensures old(s).lock == Some(id) ==> s.lock == Some(id) && SameCounters(old(s).ledger, s.ledger)
    {
      var es := Filter(Others(id), others(turn));
      Reachable(policy, cfg, trace);
      OthersStand(policy, cfg, s, es, id);
      RunConcat(policy, cfg, EMPTY, trace, es);
      trace := trace + es;
      s := Run(policy, cfg, s, es);
      turn := turn + 1;
    }

    ghost method Note(e: Event)
      requires Valid()
      modifies this`trace
      ensures Run(policy, cfg, EMPTY, trace) == Apply(policy, cfg, s, e)
    {
      RunNext(policy, cfg, EMPTY, trace, e);
      trace := trace + [e];
    }

    /** `_try_start_generation`. */
    method TryStartGeneration(cloud: bool) returns (started: bool)
      requires Valid()
      modifies this
      ensures Valid() && s == Apply(policy, cfg, old(s), Start(cloud))
      ensures started <==> && old(s).slots.total < policy.normal && old(s).slots.total < policy.hard
                           && (cloud ==> old(s).slots.cloud < policy.maxCloud) && (!cloud ==> old(s).slots.local < policy.maxLocal)
      ensures started ==> s.calls == old(s).calls + [Call(cloud, Waiting)]
    {
      Note(Start(cloud));
      if s.slots.total >= policy.normal || s.slots.total >= policy.hard {
        return false;
      }
      if (cloud && s.slots.cloud >= policy.maxCloud) || (!cloud && s.slots.local >= policy.maxLocal) {
        return false;
      }
      var slots := s.slots;
      slots := slots.(total := slots.total + 1);
      if cloud {
        slots := slots.(cloud := slots.cloud + 1);
      } else {
        slots := slots.(local := slots.local + 1);
      }
      s := s.(slots := slots, calls := s.calls + [Call(cloud, Waiting)]);
      return true;
    }

    /** `_finish_generation`: the clamps at zero never act. */
    method FinishGeneration(id: nat)
      requires Valid() && id < |s.calls| && HoldsSlot(s.calls[id])
      modifies this
      ensures Valid() && s == Apply(policy, cfg, old(s), Finish(id))
      ensures s.slots.total == old(s).slots.total - 1
      ensures s.slots.cloud == old(s).slots.cloud - (if old(s).calls[id].cloud then 1 else 0)
      ensures s.slots.local == old(s).slots.local - (if old(s).calls[id].cloud then 0 else 1)
    {
      Reachable(policy, cfg, trace);
      SlotHeldCounts(s, id);
      Note(Finish(id));
      var slots, cloud := s.slots, s.calls[id].cloud;
      slots := slots.(total := Max(0, slots.total - 1));
      if cloud {
        slots := slots.(cloud := Max(0, slots.cloud - 1));
      } else {
        slots := slots.(local := Max(0, slots.local - 1));
      }
      s := SetPhase(s, id, Released).(slots := slots, lock := Unlock(s, id));
    }

    /** The `except` of `reserve`: try to set the block, let the lock go. */
    method GiveUp(id: nat, late: bool, noted: bool)
      requires Valid() && AtGate(s, id) && (late ==> s.calls[id].phase.Pending?)
      modifies this
      ensures Valid() && s.lock.None? && s.calls == old(s).calls[id := Call(true, Settled)]
      ensures var p := old(s).calls[id].phase;
              s.ledger == Blocked(if late then Granted(old(s).ledger, Grant(p.session, p.day, p.month)) else old(s).ledger, noted)
    {
      Note(ReserveFail(id, late, noted));
      var p := s.calls[id].phase;
      var reached := if late then Granted(s.ledger, Grant(p.session, p.day, p.month)) else s.ledger;
      s := SetPhase(s, id, Settled).(lock := None, ledger := reached);
      SetAccountingBlock(noted);
    }

    /** The reads of `reserve` and the verdict on the caps. */
    method ReadCaps(id: nat) returns (why: Option<Reason>)
      requires Valid() && AtGate(s, id) && s.calls[id].phase.Checking?
      modifies this
      ensures Valid() && s.ledger == old(s).ledger
      ensures var p := old(s).calls[id].phase;
              && why == CapReason(cfg, old(s), p.session, p.day, p.month, p.quote)
              && s.lock == (if why.Some? then None else Some(id))
              && s.calls == old(s).calls[id := Call(true, if why.Some? then Settled else Pending(p.quote, p.session, p.day, p.month))]
    {
      Note(ReserveRead(id));
      var p := s.calls[id].phase;
      why := CapReason(cfg, s, p.session, p.day, p.month, p.quote);
      if why.Some? {
        s := SetPhase(s, id, Settled).(lock := None);
      } else {
        s := SetPhase(s, id, Pending(p.quote, p.session, p.day, p.month));
      }
    }

    /** The rest of `reserve` once the first checks are passed. */
    method ReserveLocked(id: nat, luck: Luck) returns (d: Decision, ghost was: Ledger)
      requires Valid() && AtGate(s, id) && s.calls[id].phase.Checking?
      modifies this
      ensures Valid() && id < |s.calls| && s.lock.None?
      ensures var p := old(s).calls[id].phase;
              && s.calls[id] == Call(true, if d.Allowed? then InFlight(p.quote) else Settled)
              && SameCounters(old(s).ledger, was)
              && s.ledger == Outcome(was, Grant(p.session, p.day, p.month), d, luck)
      ensures d.Failed? ==> luck.fault != NoFault
    {
      var p := s.calls[id].phase;
      Await(id);
      was := s.ledger;
      if luck.fault == AtRead {
        GiveUp(id, false, luck.noted);
        return Failed, was;
      }
      var why := ReadCaps(id);
      if why.Some? {
        return Refused(why.value), was;
      }
      Await(id);
      was := s.ledger;
      if luck.fault == AtCommit || luck.fault == AfterCommit {
        GiveUp(id, luck.fault == AfterCommit, luck.noted);
        return Failed, was;
      }
      Note(ReserveCommit(id));
      s := SetPhase(s, id, InFlight(p.quote)).(lock := None, ledger := Granted(s.ledger, Grant(p.session, p.day, p.month)));
      return Allowed, was;
    }

    /** `reserve`, from the moment it gets the lock. `was` is the ledger it decided on. */
    method Reserve(id: nat, session: Option<string>, q: Quote, luck: Luck) returns (d: Decision, ghost was: Ledger)
      requires Valid() && MayEnter(s, id)
      modifies this
      ensures Valid() && id < |s.calls| && s.lock.None?
      ensures s.calls[id] == Call(true, if d.Allowed? then InFlight(q) else Settled)
      ensures d.Allowed? || d.Failed? ==> EnterReason(cfg, old(s), q, luck.store, luck.blind).None?
      ensures EnterReason(cfg, old(s), q, luck.store, luck.blind).Some? ==>
                d == Refused(EnterReason(cfg, old(s), q, luck.store, luck.blind).value)
      ensures d.Failed? ==> luck.fault != NoFault
      ensures SameCounters(old(s).ledger, was)
      ensures s.ledger == Outcome(was, Grant(SessionKey(session), old(s).day, old(s).month), d, luck)
    {
      was := s.ledger;
      Note(ReserveEnter(id, session, q, luck.store, luck.blind));
      var why := EnterReason(cfg, s, q, luck.store, luck.blind);
      if why.Some? {
        s := SetPhase(s, id, Settled);
        return Refused(why.value), was;
      }
      s := SetPhase(s, id, Checking(q, SessionKey(session), s.day, s.month)).(lock := Some(id));
      d, was := ReserveLocked(id, luck);
    }

    /** `record_usage`: it does not take the lock. */
    method RecordUsage(id: nat, input: Option<int>, output: Option<int>, store: Store, noted: bool) returns (r: Recording)
      requires Valid() && id < |s.calls| && s.calls[id].phase.InFlight?
      modifies this
      ensures Valid() && s == Apply(policy, cfg, old(s), Record(id, input, output, store, noted))
      ensures r == Recorded || (r == AccountingFailed && store == BrokenLate) ==>
                && input.Some? && output.Some?
                && |s.ledger.usage| == |old(s).ledger.usage| + 1
                && var row := s.ledger.usage[|s.ledger.usage| - 1];
                   && s.ledger.usage == old(s).ledger.usage + [row] && row.day == s.day && row.month == s.month
                   && SM.Amount(cfg, old(s).calls[id].phase.quote, input.value, output.value, row.cost)
      ensures !(r == Recorded || (r == AccountingFailed && store == BrokenLate)) ==> s.ledger.usage == old(s).ledger.usage
      ensures s.ledger.error <==> old(s).ledger.error || (noted && r != Recorded && r != NoStore)
    {
      Note(Record(id, input, output, store, noted));
      var q := s.calls[id].phase.quote;
      s := SetPhase(s, id, Settled);
      if input.None? || output.None? {
        SetAccountingBlock(noted);
        return MissingMetadata;
      }
      if input.value < 0 || output.value < 0 {
        SetAccountingBlock(noted);
        return InvalidMetadata;
      }
      if store == Unavailable {
        return NoStore;
      }
      if store == Broken {
        SetAccountingBlock(noted);
        return AccountingFailed;
      }
      SM.CostIsAmount(cfg, q, input.value, output.value);
      var row := SpendControl.Usage(s.day, s.month, Cost(cfg, input.value, output.value, q));
      s := s.(ledger := s.ledger.(usage := s.ledger.usage + [row]));
      if store == BrokenLate {
        SetAccountingBlock(noted);
        return AccountingFailed;
      }
      return Recorded;
    }

    /** `_set_accounting_block`: a failure to write it goes unnoticed. */
    method SetAccountingBlock(noted: bool)
      modifies this`s
      ensures s == old(s).(ledger := Blocked(old(s).ledger, noted))
    {
      if noted {
        s := s.(ledger := s.ledger.(error := true));
      }
    }

    /** Inside the slot: reserve, call the provider, record. */
    method CloudChat(id: nat, session: Option<string>, q: Quote, luck: Luck, reply: Reply) returns (answered: bool)
      requires Valid() && MayEnter(s, id)
      modifies this
      ensures Valid() && id < |s.calls| && s.calls[id] == Call(true, Settled)
      ensures answered ==> reply.Usage? && cfg.enabled && (!old(s).ledger.error || luck.blind)
    {
      var d, was := Reserve(id, session, q, luck);
      if !d.Allowed? {
        return false;
      }
      Await(id);
      if reply.Fails? {
        Note(ProviderFails(id));
        s := SetPhase(s, id, Settled);
        return false;
      }
      var recorded := RecordUsage(id, reply.input, reply.output, luck.store, luck.noted);
      return true;
    }

    /** One cloud route of `chat`: the slot is given back on every path. */
    method CloudRoute(session: Option<string>, q: Quote, luck: Luck, reply: Reply) returns (answered: bool, id: nat)
      requires Valid() && s.lock.None?
      modifies this
      ensures Valid()
      ensures CanStart(policy, true, old(s).slots) ==> id < |s.calls| && s.calls[id] == Call(true, Released)
      ensures !CanStart(policy, true, old(s).slots) ==> !answered && s == old(s)
      ensures answered ==> reply.Usage? && cfg.enabled && (!old(s).ledger.error || luck.blind)
    {
      id := |s.calls|;
      var started := TryStartGeneration(true);
      if !started {
        return false, id;
      }
      answered := CloudChat(id, session, q, luck, reply);
      Await(id);
      FinishGeneration(id);
    }
  }
}
