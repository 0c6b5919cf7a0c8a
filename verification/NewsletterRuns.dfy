/** Safety of every run of the newsletter protocol: one send loop per issue, one
    mail per subscriber, silence after a cancel. */
module NewsletterRuns {
  import opened Text
  import opened Newsletter
  import opened StableSort

  function Holding(p: Phase): Option<nat> {
    if p.Resting? then None else Some(p.id)
  }

  predicate Holds(s: State, w: nat, id: nat) {
    w in s.dispatchers && Holding(s.dispatchers[w].phase) == Some(id)
  }

  predicate Silent(log: seq<Emission>, id: nat) {
    forall e :: e in log ==> e.id != id
  }

  predicate Busy(status: Status) {
    status == Sending || status == Sent
  }

  /** What the log says about an issue agrees with how far its dispatcher is. */
  ghost predicate Progress(s: State, p: Phase) {
    match p
    case Resting => true
    case Assigning(id, attempt) => attempt < ATTEMPTS && Silent(s.log, id)
    case Numbering(id, attempt, n) => attempt < ATTEMPTS && Silent(s.log, id)
    case Ready(id) => Silent(s.log, id) && (Live(s.rows, id) ==> s.rows[id].value.ship.Some?)
    case Delivering(id, done, todo) =>
      && Began(id) in s.log && LinkedIn(id) !in s.log && Web(id) !in s.log
      && (forall sub :: Email(id, sub) in s.log <==> sub in done)
      && Distinct(done + todo) && id in s.audience && s.audience[id] == done + todo
      && (Live(s.rows, id) ==> s.rows[id].value.ship.Some?)
    case Posted(id, done) =>
      && Began(id) in s.log && LinkedIn(id) in s.log && Web(id) !in s.log
      && (forall sub :: Email(id, sub) in s.log <==> sub in done)
      && id in s.audience && s.audience[id] == done
      && (Live(s.rows, id) ==> s.rows[id].value.ship.Some?)
  }

  /** Everyone the send loop started with was mailed, and nobody else. */
  ghost predicate Reached(s: State, id: nat) {
    && Began(id) in s.log && LinkedIn(id) in s.log && Web(id) in s.log && id in s.audience
    && forall sub :: Email(id, sub) in s.log <==> sub in s.audience[id]
  }

  /** A row and the log agree: what was emitted was numbered and is being or has
      been sent; what is sent went out on every channel. */
  ghost predicate RowOk(s: State, id: nat) {
    Live(s.rows, id) ==>
      var issue := s.rows[id].value;
      && (!Silent(s.log, id) ==> issue.ship.Some? && Busy(issue.status))
      && (issue.status == Sent ==> Reached(s, id))
  }

  ghost predicate HolderOk(s: State, w: nat, id: nat) {
    Holds(s, w, id) ==> id < |s.rows| && (Live(s.rows, id) ==> s.rows[id].value.status == Sending)
  }

  ghost predicate Exclusive(s: State) {
    forall w: nat, w': nat, id: nat :: Holds(s, w, id) && Holds(s, w', id) ==> w == w'
  }

  ghost predicate Inv(s: State) {
    && Distinct(s.log)
    && (forall e :: e in s.log ==> e.id < |s.rows| && Began(e.id) in s.log)
    && (forall id: nat :: RowOk(s, id))
    && (forall w: nat, id: nat :: HolderOk(s, w, id))
    && (forall w :: w in s.dispatchers ==> Progress(s, s.dispatchers[w].phase))
    && Exclusive(s)
  }

  predicate Held(s: State, id: nat) {
    exists w :: w in s.dispatchers && Holding(s.dispatchers[w].phase) == Some(id)
  }

  /** A write, decided by an earlier read, that hands an existing issue back to the
      operator: an unpublish that saw it approved, or the late rollback. */
  predicate Returns(s: State, e: Event) {
    (e.LateRollback? || (e.UnpublishWrite? && e.seen == Approved)) && Live(s.rows, e.id)
  }

  /** Such a write comes in time when nobody is sending the issue and nothing of
      it has left the system. */
  predicate Timely(s: State, e: Event) {
    Returns(s, e) ==> !Held(s, e.id) && Silent(s.log, e.id)
  }

  predicate TimelyRun(s: State, events: seq<Event>)
    decreases events
  {
    events == [] || (Timely(s, events[0]) && TimelyRun(Apply(s, events[0]), events[1..]))
  }

  /** In time for the numbers as well: the issue handed back has none yet. */
  predicate Steady(s: State, e: Event) {
    Timely(s, e) && (Returns(s, e) ==> s.rows[e.id].value.ship.None?)
  }

  predicate SteadyRun(s: State, events: seq<Event>)
    decreases events
  {
    events == [] || (Steady(s, events[0]) && SteadyRun(Apply(s, events[0]), events[1..]))
  }

  /** Every unpublish and every rollback one step: no write from an earlier read. */
  predicate Atomic(events: seq<Event>) {
    forall e :: e in events ==> !e.UnpublishWrite? && !e.LateRollback?
  }

  lemma {:induction false} AtomicIsSteady(s: State, events: seq<Event>)
    requires Atomic(events)
    ensures SteadyRun(s, events)
    decreases events
  {
    if events != [] {
      assert events[0] in events && Atomic(events[1..]);
      AtomicIsSteady(Apply(s, events[0]), events[1..]);
    }
  }

  lemma {:induction false} SteadyIsTimely(s: State, events: seq<Event>)
    requires SteadyRun(s, events)
    ensures TimelyRun(s, events)
    decreases events
  {
    if events != [] {
      SteadyIsTimely(Apply(s, events[0]), events[1..]);
    }
  }

  lemma AtomicIsTimely(s: State, events: seq<Event>)
    requires Atomic(events)
    ensures TimelyRun(s, events)
  {
    AtomicIsSteady(s, events);
    SteadyIsTimely(s, events);
  }

  // ----- operators -----

  /** What operators and drafting sessions may do to a row. */
  predicate Untouched(a: Option<Issue>, b: Option<Issue>) {
    b.Some? ==>
      && a.Some? && a.value.ship == b.value.ship
      && (Busy(a.value.status) || Busy(b.value.status) ==> a.value.status == b.value.status)
  }

  predicate Unborn(b: Option<Issue>) {
    b.Some? ==> b.value.ship.None? && !Busy(b.value.status)
  }

  predicate HandedBack(a: Option<Issue>, b: Option<Issue>) {
    a.Some? && b.Some? && a.value.ship == b.value.ship && b.value.status == AwaitingApproval
  }

  /** What a row may become: an issue is handed back only while unheld and silent. */
  ghost predicate RowMoves(s: State, rows': Rows, i: nat)
    requires i < |s.rows| && i < |rows'|
  {
    Untouched(s.rows[i], rows'[i]) || (HandedBack(s.rows[i], rows'[i]) && !Held(s, i) && Silent(s.log, i))
  }

  ghost predicate Operated(s: State, rows': Rows) {
    && |s.rows| <= |rows'|
    && (forall i: nat :: i < |s.rows| ==> RowMoves(s, rows', i))
    && (forall i :: |s.rows| <= i < |rows'| ==> Unborn(rows'[i]))
  }

  lemma OperatorKeeps(s: State, rows': Rows, drafts': map<nat, Drafting>)
    requires Inv(s) && Operated(s, rows')
    ensures Inv(s.(rows := rows', drafts := drafts'))
  {
    var s' := s.(rows := rows', drafts := drafts');
    forall id: nat ensures RowOk(s', id) {
      assert RowOk(s, id);
      if Live(rows', id) && id < |s.rows| {
        assert RowMoves(s, rows', id);
      } else if Live(rows', id) {
        assert Unborn(rows'[id]);
      }
    }
    forall w: nat, id: nat ensures HolderOk(s', w, id) {
      assert HolderOk(s, w, id);
      assert Holds(s', w, id) ==> Holds(s, w, id);
      if Holds(s', w, id) && Live(rows', id) {
        assert RowMoves(s, rows', id);
      }
    }
    forall w | w in s'.dispatchers ensures Progress(s', s'.dispatchers[w].phase) {
      var p := s.dispatchers[w].phase;
      assert Progress(s, p);
      if !p.Resting? {
        assert HolderOk(s, w, p.id) && Holds(s, w, p.id);
        assert Live(rows', p.id) ==> RowMoves(s, rows', p.id);
      }
    }
    assert forall w: nat, id: nat :: Holds(s', w, id) <==> Holds(s, w, id);
  }

  predicate Operator(e: Event) {
    e.ReadLastShip? || e.ReadCount? || e.Insert? || e.Approve? || e.Cancel? || e.Unpublish? || e.UnpublishWrite? || e.LateRollback?
    || e.Delete? || e.Reschedule?
  }

  lemma OperatorSteps(s: State, e: Event)
    requires Inv(s) && Timely(s, e) && Operator(e)
    ensures Inv(Apply(s, e))
  {
    var s' := Apply(s, e);
    assert forall id: nat :: RowOk(s, id);
    forall i: nat | i < |s.rows| ensures RowMoves(s, s'.rows, i) {
      assert RowOk(s, i);
    }
    OperatorKeeps(s, s'.rows, s'.drafts);
  }

  // ----- dispatchers -----

  /** A dispatcher lets go of whatever it held. */
  lemma LettingGoKeeps(s: State, dispatchers': map<nat, Dispatcher>, w: nat)
    requires Inv(s)
    requires forall v :: v in dispatchers' ==>
               if v == w then dispatchers'[v].phase == At(s, w).phase || dispatchers'[v].phase.Resting?
               else v in s.dispatchers && dispatchers'[v] == s.dispatchers[v]
    ensures Inv(s.(dispatchers := dispatchers'))
  {
    var s' := s.(dispatchers := dispatchers');
    assert forall id: nat :: RowOk(s, id) ==> RowOk(s', id);
    forall v: nat, id: nat ensures HolderOk(s', v, id) && (Holds(s', v, id) ==> Holds(s, v, id)) {
      assert HolderOk(s, v, id);
    }
    forall v | v in s'.dispatchers ensures Progress(s', s'.dispatchers[v].phase) {
      assert v in s.dispatchers ==> Progress(s, s.dispatchers[v].phase);
    }
  }

  /** The frame of every other dispatcher step: one issue, nobody else's. */
  lemma AdvanceKeeps(s: State, w: nat, id: nat, row: Option<Issue>, d: Dispatcher, more: seq<Emission>, audience': map<nat, seq<nat>>)
    requires Inv(s) && id < |s.rows| && (forall v: nat :: v != w ==> !Holds(s, v, id))
    requires (forall e :: e in more ==> e.id == id) && Distinct(s.log + more)
    requires more != [] ==> Began(id) in s.log + more
    requires audience' - {id} == s.audience - {id}
    requires row.Some? <==> s.rows[id].Some?
    requires Holding(d.phase) == None || Holding(d.phase) == Some(id)
    requires var s' := s.(rows := s.rows[id := row], dispatchers := s.dispatchers[w := d], log := s.log + more, audience := audience');
             RowOk(s', id) && Progress(s', d.phase) && HolderOk(s', w, id)
    ensures Inv(s.(rows := s.rows[id := row], dispatchers := s.dispatchers[w := d], log := s.log + more, audience := audience'))
  {
    var s' := s.(rows := s.rows[id := row], dispatchers := s.dispatchers[w := d], log := s.log + more, audience := audience');
    forall e | e in s'.log ensures e.id < |s'.rows| && Began(e.id) in s'.log {
      assert e in s.log || e in more;
    }
    forall k: nat ensures RowOk(s', k) {
      assert RowOk(s, k);
      if k != id {
        OthersSilent(s.log, more, k, id);
        SameAudience(s.audience, audience', k, id);
      }
    }
    forall v: nat, k: nat ensures HolderOk(s', v, k) && (Holds(s', v, k) ==> if v == w then k == id else k != id && Holds(s, v, k)) {
      assert HolderOk(s, v, k);
      if v == w {
        assert Holds(s', w, k) ==> k == id;
        assert HolderOk(s', w, id);
      } else {
        assert Holds(s', v, k) == Holds(s, v, k);
      }
    }
    forall v | v in s'.dispatchers ensures Progress(s', s'.dispatchers[v].phase) {
      if v != w {
        var p := s.dispatchers[v].phase;
        assert Progress(s, p);
        if !p.Resting? {
          assert Holds(s, v, p.id);
          OthersSilent(s.log, more, p.id, id);
          SameAudience(s.audience, audience', p.id, id);
        }
      }
    }
  }

  lemma SameAudience(a: map<nat, seq<nat>>, b: map<nat, seq<nat>>, k: nat, id: nat)
    requires a - {id} == b - {id} && k != id
    ensures k in a <==> k in b
    ensures k in a ==> a[k] == b[k]
  {
    assert k in a <==> k in a - {id};
    assert k in b <==> k in b - {id};
    if k in a {
      assert (a - {id})[k] == a[k] && (b - {id})[k] == b[k];
    }
  }

  lemma OthersSilent(log: seq<Emission>, more: seq<Emission>, k: nat, id: nat)
    requires k != id && forall e :: e in more ==> e.id == id
    ensures Silent(log + more, k) <==> Silent(log, k)
    ensures Began(k) in log + more <==> Began(k) in log
    ensures LinkedIn(k) in log + more <==> LinkedIn(k) in log
    ensures Web(k) in log + more <==> Web(k) in log
    ensures forall sub :: Email(k, sub) in log + more <==> Email(k, sub) in log
  {
  }

  lemma Sole(s: State, w: nat)
    requires Inv(s) && !At(s, w).phase.Resting?
    ensures var p := At(s, w).phase;
            && p.id < |s.rows| && HolderOk(s, w, p.id) && RowOk(s, p.id) && Progress(s, p)
            && Holds(s, w, p.id) && (forall v: nat :: v != w ==> !Holds(s, v, p.id))
            && (Live(s.rows, p.id) ==> s.rows[p.id].value.status == Sending)
  {
    assert Holds(s, w, At(s, w).phase.id);
    assert HolderOk(s, w, At(s, w).phase.id);
  }

  lemma ClaimKeeps(s: State, w: nat)
    requires Inv(s)
    ensures Inv(ClaimStep(s, w))
  {
    var d := At(s, w);
    if d.phase.Resting? && d.due != [] {
      var id := d.due[0];
      if Has(s.rows, id, Approved) {
        assert RowOk(s, id);
        forall v: nat ensures !Holds(s, v, id) {
          assert HolderOk(s, v, id);
        }
        assert s.log + [] == s.log;
        AdvanceKeeps(s, w, id, Some(s.rows[id].value.(status := Sending)), Dispatcher(d.due[1..], Assigning(id, 0)), [], s.audience);
      } else {
        LettingGoKeeps(s, s.dispatchers[w := Dispatcher(d.due[1..], Resting)], w);
      }
    }
  }

  lemma ReadMaxKeeps(s: State, w: nat)
    requires Inv(s)
    ensures Inv(ReadMaxStep(s, w))
  {
    var p := At(s, w).phase;
    if p.Assigning? {
      Sole(s, w);
      assert s.log + [] == s.log && s.rows[p.id := s.rows[p.id]] == s.rows;
      if Live(s.rows, p.id) {
        AdvanceKeeps(s, w, p.id, s.rows[p.id], At(s, w).(phase := Numbering(p.id, p.attempt, LastShip(s.rows) + 1)), [], s.audience);
      } else {
        AdvanceKeeps(s, w, p.id, s.rows[p.id], At(s, w).(phase := Resting), [], s.audience);
      }
    }
  }

  lemma CommitKeeps(s: State, w: nat)
    requires Inv(s)
    ensures Inv(CommitStep(s, w))
  {
    var p := At(s, w).phase;
    if p.Numbering? {
      Sole(s, w);
      assert s.log + [] == s.log && s.rows[p.id := s.rows[p.id]] == s.rows;
      if !Live(s.rows, p.id) {
        AdvanceKeeps(s, w, p.id, s.rows[p.id], At(s, w).(phase := Resting), [], s.audience);
      } else if !NumberTaken(s.rows, p.id, p.number) {
        AdvanceKeeps(s, w, p.id, Some(s.rows[p.id].value.(ship := Some(p.number), tag := Numeral(p.number))),
                     At(s, w).(phase := Ready(p.id)), [], s.audience);
      } else if p.attempt + 1 < ATTEMPTS {
        AdvanceKeeps(s, w, p.id, s.rows[p.id], At(s, w).(phase := Assigning(p.id, p.attempt + 1)), [], s.audience);
      } else {
        AdvanceKeeps(s, w, p.id, Revert(s.rows, p.id)[p.id], At(s, w).(phase := Resting), [], s.audience);
      }
    }
  }

  lemma HaltKeeps(s: State, w: nat)
    requires Inv(s)
    ensures Inv(HaltStep(s, w))
  {
    var p := At(s, w).phase;
    if p.Assigning? || p.Numbering? {
      Sole(s, w);
      assert s.log + [] == s.log && s.rows[p.id := s.rows[p.id]] == s.rows;
      AdvanceKeeps(s, w, p.id, Revert(s.rows, p.id)[p.id], At(s, w).(phase := Resting), [], s.audience);
    }
  }

  lemma DistinctSnoc<T(!new)>(s: seq<T>, x: T)
    requires Distinct(s) && x !in s
    ensures Distinct(s + [x])
  {
  }

  lemma BeginKeeps(s: State, w: nat, subscribers: seq<nat>)
    requires Inv(s)
    ensures Inv(BeginStep(s, w, subscribers))
  {
    var p := At(s, w).phase;
    if p.Ready? && NoRepeats(subscribers) {
      Sole(s, w);
      assert s.rows[p.id := s.rows[p.id]] == s.rows && [] + subscribers == subscribers;
      DistinctSnoc(s.log, Began(p.id));
      AdvanceKeeps(s, w, p.id, s.rows[p.id], At(s, w).(phase := Delivering(p.id, [], subscribers)), [Began(p.id)],
                  s.audience[p.id := subscribers]);
    }
  }

  lemma DeliverKeeps(s: State, w: nat)
    requires Inv(s)
    ensures Inv(DeliverStep(s, w))
  {
    var p := At(s, w).phase;
    if p.Delivering? && p.todo != [] {
      Sole(s, w);
      var sub := p.todo[0];
      assert s.rows[p.id := s.rows[p.id]] == s.rows;
      assert p.done + [sub] + p.todo[1..] == p.done + p.todo;
      assert forall i :: 0 <= i < |p.done| ==> (p.done + p.todo)[i] != (p.done + p.todo)[|p.done|];
      assert forall i :: 0 <= i < |p.done| ==> (p.done + p.todo)[i] == p.done[i];
      DistinctSnoc(s.log, Email(p.id, sub));
      assert forall k :: k in p.done + [sub] <==> k in p.done || k == sub;
      AdvanceKeeps(s, w, p.id, s.rows[p.id], At(s, w).(phase := Delivering(p.id, p.done + [sub], p.todo[1..])), [Email(p.id, sub)], s.audience);
    }
  }

  lemma PostKeeps(s: State, w: nat)
    requires Inv(s)
    ensures Inv(PostStep(s, w))
  {
    var p := At(s, w).phase;
    if p.Delivering? && p.todo == [] {
      Sole(s, w);
      assert s.rows[p.id := s.rows[p.id]] == s.rows;
      DistinctSnoc(s.log, LinkedIn(p.id));
      AdvanceKeeps(s, w, p.id, s.rows[p.id], At(s, w).(phase := Posted(p.id, p.done)), [LinkedIn(p.id)], s.audience);
    }
  }

  lemma FinalizeKeeps(s: State, w: nat)
    requires Inv(s)
    ensures Inv(FinalizeStep(s, w))
  {
    var p := At(s, w).phase;
    if p.Posted? {
      Sole(s, w);
      assert s.log + [] == s.log && s.rows[p.id := s.rows[p.id]] == s.rows;
      if Live(s.rows, p.id) {
        DistinctSnoc(s.log, Web(p.id));
        AdvanceKeeps(s, w, p.id, Some(s.rows[p.id].value.(status := Sent)), At(s, w).(phase := Resting), [Web(p.id)], s.audience);
      } else {
        AdvanceKeeps(s, w, p.id, s.rows[p.id], At(s, w).(phase := Resting), [], s.audience);
      }
    }
  }

  lemma DispatcherSteps(s: State, e: Event)
    requires Inv(s) && !Operator(e)
    ensures Inv(Apply(s, e))
  {
    match e
    case Poll(w, now, found) => LettingGoKeeps(s, PollStep(s, w, now, found).dispatchers, w);
    case Enlist(w, id) => LettingGoKeeps(s, Apply(s, e).dispatchers, w);
    case Claim(w) => ClaimKeeps(s, w);
    case ReadMax(w) => ReadMaxKeeps(s, w);
    case Commit(w) => CommitKeeps(s, w);
    case Halt(w) => HaltKeeps(s, w);
    case Begin(w, subscribers) => BeginKeeps(s, w, subscribers);
    case Deliver(w) => DeliverKeeps(s, w);
    case Post(w) => PostKeeps(s, w);
    case Finalize(w) => FinalizeKeeps(s, w);
    case Abandon(w) => LettingGoKeeps(s, Apply(s, e).dispatchers, w);
    case Crash(w) => LettingGoKeeps(s, Apply(s, e).dispatchers, w);
  }

  /** Every step keeps the protocol's invariant. */
  lemma StepKeeps(s: State, e: Event)
    requires Inv(s) && Timely(s, e)
    ensures Inv(Apply(s, e))
  {
    if Operator(e) {
      OperatorSteps(s, e);
    } else {
      DispatcherSteps(s, e);
    }
  }

  lemma {:induction false} RunKeeps(s: State, events: seq<Event>)
    requires Inv(s) && TimelyRun(s, events)
    ensures Inv(Run(s, events))
    decreases events
  {
    if events != [] {
      StepKeeps(s, events[0]);
      RunKeeps(Apply(s, events[0]), events[1..]);
    }
  }

  lemma EmptyInv()
    ensures Inv(EMPTY)
  {
  }

  // ----- numbers -----

  predicate ShipOk(row: Option<Issue>) {
    row.Some? && row.value.ship.Some? ==> Busy(row.value.status)
  }

  predicate UnnumberedYet(rows: Rows, p: Phase) {
    (p.Assigning? || p.Numbering?) && Live(rows, p.id) ==> rows[p.id].value.ship.None?
  }

  /** Only issues being sent or sent are numbered, and those still waiting for a
      number have none. */
  ghost predicate NumInv(s: State) {
    && (forall i: nat :: i < |s.rows| ==> ShipOk(s.rows[i]))
    && (forall w :: w in s.dispatchers ==> UnnumberedYet(s.rows, s.dispatchers[w].phase))
  }

  lemma OperatorNumbers(s: State, e: Event)
    requires Inv(s) && NumInv(s) && Steady(s, e) && Operator(e)
    ensures NumInv(Apply(s, e))
  {
    var s' := Apply(s, e);
    forall i: nat | i < |s'.rows| ensures ShipOk(s'.rows[i]) {
      assert i < |s.rows| ==> ShipOk(s.rows[i]);
    }
    forall w | w in s'.dispatchers ensures UnnumberedYet(s'.rows, s'.dispatchers[w].phase) {
      var p := s.dispatchers[w].phase;
      assert UnnumberedYet(s.rows, p);
      if !p.Resting? {
        assert Holds(s, w, p.id) && HolderOk(s, w, p.id);
      }
    }
  }

  lemma DispatcherNumbers(s: State, e: Event)
    requires Inv(s) && NumInv(s) && !Operator(e)
    ensures NumInv(Apply(s, e))
  {
    var s', w := Apply(s, e), e.w;
    if At(s, w).phase.Resting? {
      ClaimNumbers(s, e);
    } else {
      Sole(s, w);
      HolderNumbers(s, e);
    }
  }

  lemma ClaimNumbers(s: State, e: Event)
    requires Inv(s) && NumInv(s) && !Operator(e) && At(s, e.w).phase.Resting?
    ensures NumInv(Apply(s, e))
  {
    var s' := Apply(s, e);
    forall i: nat | i < |s'.rows| ensures ShipOk(s'.rows[i]) {
      assert ShipOk(s.rows[i]);
    }
    forall v | v in s'.dispatchers ensures UnnumberedYet(s'.rows, s'.dispatchers[v].phase) {
      if v != e.w {
        assert UnnumberedYet(s.rows, s.dispatchers[v].phase);
      }
    }
  }

  lemma HolderNumbers(s: State, e: Event)
    requires Inv(s) && NumInv(s) && !Operator(e) && !At(s, e.w).phase.Resting?
    requires forall v: nat :: v != e.w ==> !Holds(s, v, At(s, e.w).phase.id)
    ensures NumInv(Apply(s, e))
  {
    var s', p := Apply(s, e), At(s, e.w).phase;
    assert UnnumberedYet(s.rows, p) && HolderOk(s, e.w, p.id) && Holds(s, e.w, p.id);
    assert ShipOk(s.rows[p.id]);
    HolderRow(s, e);
    OthersSame(s, e);
    forall i: nat | i < |s'.rows| ensures ShipOk(s'.rows[i]) {
      assert ShipOk(s.rows[i]);
    }
    forall v | v in s'.dispatchers ensures UnnumberedYet(s'.rows, s'.dispatchers[v].phase) {
      if v != e.w {
        assert v in s.dispatchers && s'.dispatchers[v] == s.dispatchers[v];
        assert UnnumberedYet(s.rows, s.dispatchers[v].phase) && !Holds(s, v, p.id);
      }
    }
  }

  /** The holder's own step touches its own row and its own phase. */
  lemma HolderRow(s: State, e: Event)
    requires !Operator(e) && !At(s, e.w).phase.Resting? && At(s, e.w).phase.id < |s.rows|
    requires var p := At(s, e.w).phase;
             UnnumberedYet(s.rows, p) && ShipOk(s.rows[p.id]) && (Live(s.rows, p.id) ==> s.rows[p.id].value.status == Sending)
    ensures var s', p := Apply(s, e), At(s, e.w).phase;
            && |s'.rows| == |s.rows| && s'.rows == s.rows[p.id := s'.rows[p.id]] && ShipOk(s'.rows[p.id])
            && (e.w in s'.dispatchers ==> UnnumberedYet(s'.rows, s'.dispatchers[e.w].phase))
  {
  }

  lemma OthersSame(s: State, e: Event)
    requires !Operator(e)
    ensures forall v: nat :: v != e.w && v in Apply(s, e).dispatchers ==>
              v in s.dispatchers && Apply(s, e).dispatchers[v] == s.dispatchers[v]
  {
  }

  lemma StepNumbers(s: State, e: Event)
    requires Inv(s) && NumInv(s) && Steady(s, e)
    ensures Inv(Apply(s, e)) && NumInv(Apply(s, e))
  {
    StepKeeps(s, e);
    if Operator(e) {
      OperatorNumbers(s, e);
    } else {
      DispatcherNumbers(s, e);
    }
  }

  lemma {:induction false} SteadyRunKeeps(s: State, events: seq<Event>)
    requires Inv(s) && NumInv(s) && SteadyRun(s, events)
    ensures Inv(Run(s, events)) && NumInv(Run(s, events))
    decreases events
  {
    if events != [] {
      StepNumbers(s, events[0]);
      SteadyRunKeeps(Apply(s, events[0]), events[1..]);
    }
  }

  lemma SteadyReached(events: seq<Event>)
    requires SteadyRun(EMPTY, events)
    ensures Inv(Run(EMPTY, events)) && NumInv(Run(EMPTY, events))
  {
    EmptyInv();
    SteadyRunKeeps(EMPTY, events);
  }

  // ----- what a reader of the log sees -----

  function Occurrences(log: seq<Emission>, e: Emission): nat {
    multiset(log)[e]
  }

  /** However operators and dispatchers interleave, with stale due lists, crashes
      and deletions: no send loop starts twice, no subscriber is mailed an issue
      twice, no post or publication repeats. */
  lemma NothingIsSentTwice(events: seq<Event>)
    requires TimelyRun(EMPTY, events)
    ensures forall e :: Occurrences(Run(EMPTY, events).log, e) <= 1
  {
    EmptyInv();
    RunKeeps(EMPTY, events);
    OnceIffDistinct(Run(EMPTY, events).log);
  }

  /** An issue that exists and went out in any form carries its number and is
      being sent or sent; a sent issue went out on every channel. */
  lemma EmittedIsNumbered(events: seq<Event>, id: nat)
    requires TimelyRun(EMPTY, events) && Live(Run(EMPTY, events).rows, id)
    ensures var s := Run(EMPTY, events);
            var issue := s.rows[id].value;
            && (!Silent(s.log, id) ==> issue.ship.Some? && Busy(issue.status))
            && (issue.status == Sent ==> Reached(s, id))
            && (SteadyRun(EMPTY, events) && issue.ship.Some? ==> Busy(issue.status))
  {
    if SteadyRun(EMPTY, events) {
      SteadyReached(events);
      assert ShipOk(Run(EMPTY, events).rows[id]);
    }
    EmptyInv();
    RunKeeps(EMPTY, events);
    assert RowOk(Run(EMPTY, events), id);
  }

  // ----- silence -----

  /** Nothing about the issue can leave the system until it is approved again. */
  ghost predicate Quiet(s: State, id: nat) {
    && id < |s.rows| && !Has(s.rows, id, Approved)
    && forall w: nat :: !Holds(s, w, id)
  }

  predicate NoApproval(events: seq<Event>, id: nat) {
    forall e :: e in events ==> !(e.Approve? && e.id == id)
  }

  lemma QuietStep(s: State, e: Event, id: nat)
    requires Quiet(s, id) && Silent(s.log, id) && !(e.Approve? && e.id == id)
    ensures Quiet(Apply(s, e), id) && Silent(Apply(s, e).log, id)
  {
    if Operator(e) {
      assert forall w: nat :: Holds(Apply(s, e), w, id) ==> Holds(s, w, id);
    } else {
      assert !Holds(s, e.w, id);
      OthersStand(s, e);
      QuietDispatcher(s, e, id);
    }
  }

  lemma OthersStand(s: State, e: Event)
    requires !Operator(e)
    ensures forall v: nat, id: nat :: v != e.w ==> Holds(Apply(s, e), v, id) == Holds(s, v, id)
  {
  }

  lemma QuietDispatcher(s: State, e: Event, id: nat)
    requires Quiet(s, id) && Silent(s.log, id) && !Operator(e) && !Holds(s, e.w, id)
    ensures id < |Apply(s, e).rows| && !Has(Apply(s, e).rows, id, Approved)
    ensures !Holds(Apply(s, e), e.w, id) && Silent(Apply(s, e).log, id)
  {
    NoNewApproval(s, e, id);
    NoNewHold(s, e, id);
    NoNewEmission(s, e, id);
  }

  lemma NoNewApproval(s: State, e: Event, id: nat)
    requires !Operator(e) && id < |s.rows| && !Has(s.rows, id, Approved)
    ensures id < |Apply(s, e).rows| && !Has(Apply(s, e).rows, id, Approved)
  {
  }

  lemma NoNewHold(s: State, e: Event, id: nat)
    requires !Operator(e) && !Has(s.rows, id, Approved) && !Holds(s, e.w, id)
    ensures !Holds(Apply(s, e), e.w, id)
  {
  }

  lemma NoNewEmission(s: State, e: Event, id: nat)
    requires !Operator(e) && !Holds(s, e.w, id) && Silent(s.log, id)
    ensures Silent(Apply(s, e).log, id)
  {
  }

  lemma {:induction false} QuietRun(s: State, events: seq<Event>, id: nat)
    requires Quiet(s, id) && Silent(s.log, id) && NoApproval(events, id)
    ensures Quiet(Run(s, events), id) && Silent(Run(s, events).log, id)
    decreases events
  {
    if events != [] {
      QuietStep(s, events[0], id);
      assert NoApproval(events[1..], id);
      QuietRun(Apply(s, events[0]), events[1..], id);
    }
  }

  lemma UnheldUnlessSending(s: State, id: nat)
    requires Inv(s) && Live(s.rows, id) && !Busy(s.rows[id].value.status)
    ensures Silent(s.log, id) && forall w: nat :: !Holds(s, w, id)
  {
    assert RowOk(s, id);
    forall w: nat ensures !Holds(s, w, id) {
      assert HolderOk(s, w, id);
    }
  }

  /** After a successful cancel nothing of the issue is ever sent, whatever due
      lists still name it, until somebody approves it again. */
  lemma CancelSilences(before: seq<Event>, id: nat, now: int, after: seq<Event>)
    requires TimelyRun(EMPTY, before) && CanCancel(Run(EMPTY, before).rows, id, now) && NoApproval(after, id)
    ensures Silent(Run(EMPTY, before + [Cancel(id, now)] + after).log, id)
  {
    var s := Run(EMPTY, before);
    EmptyInv();
    RunKeeps(EMPTY, before);
    UnheldUnlessSending(s, id);
    RunNext(EMPTY, before, Cancel(id, now));
    RunConcat(EMPTY, before + [Cancel(id, now)], after);
    var s' := Apply(s, Cancel(id, now));
    assert forall w: nat :: Holds(s', w, id) ==> Holds(s, w, id);
    QuietRun(s', after, id);
  }

  /** The third collision in a row: the issue is back with the operator,
      unnumbered, unscheduled and silent until the next approval. */
  lemma ExhaustedRetriesSendNothing(before: seq<Event>, w: nat, after: seq<Event>)
    requires TimelyRun(EMPTY, before)
    requires var s := Run(EMPTY, before);
             var p := At(s, w).phase;
             && p.Numbering? && p.attempt == ATTEMPTS - 1 && NumberTaken(s.rows, p.id, p.number) && Live(s.rows, p.id)
             && NoApproval(after, p.id)
    ensures var id := At(Run(EMPTY, before), w).phase.id;
            var s' := Run(EMPTY, before + [Commit(w)]);
            && Has(s'.rows, id, AwaitingApproval) && s'.rows[id].value.scheduled.None?
            && (SteadyRun(EMPTY, before) ==> s'.rows[id].value.ship.None?)
            && Silent(Run(EMPTY, before + [Commit(w)] + after).log, id)
  {
    var s := Run(EMPTY, before);
    var id := At(s, w).phase.id;
    EmptyInv();
    RunKeeps(EMPTY, before);
    Sole(s, w);
    if SteadyRun(EMPTY, before) {
      SteadyReached(before);
      assert UnnumberedYet(s.rows, At(s, w).phase);
    }
    RunNext(EMPTY, before, Commit(w));
    RunConcat(EMPTY, before + [Commit(w)], after);
    var s' := Apply(s, Commit(w));
    CommitKeeps(s, w);
    UnheldUnlessSending(s', id);
    QuietRun(s', after, id);
  }
}
