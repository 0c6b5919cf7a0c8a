/** The same question for the numbers: when can a write that hands an issue back
    leave a hole in 1..n? */
module NewsletterGaps {
  import opened Text
  import opened LabelNumbering
  import opened Newsletter
  import opened NewsletterRuns
  import opened NewsletterRaces
  import opened NewsletterLabels

  ghost predicate Gap(rows: Rows) {
    exists n: nat :: 1 <= n <= LastShip(rows) && !NumberUsed(rows, n)
  }

  /** A number that its issue gives up for a later one is missing. */
  lemma LostNumber(rows: Rows, id: nat, was: nat, n: nat)
    requires Labelled(rows) && Live(rows, id) && rows[id].value.ship == Some(was) && was < n
    ensures Gap(Shipped(rows, id, n))
  {
    var rows', last, count := Shipped(rows, id, n), LastShip(rows), EpochCount(rows, LastShip(rows));
    LastShipIsMax(rows');
    assert ShipOf(rows'[id]) == n;
    assert TagOk(rows[id], last, count);
    forall i | 0 <= i < |rows'| ensures !Numbered(rows'[i], was) {
      if i != id {
        assert rows'[i] == rows[i] && TagOk(rows[i], last, count);
      }
    }
    assert !NumberUsed(rows', was);
  }

  /** `w` has stored number `n` for the issue, and nothing else moved. */
  ghost predicate Got(s: State, s': State, id: nat, w: nat, n: nat) {
    && Live(s.rows, id) && s'.rows == Shipped(s.rows, id, n)
    && forall v: nat :: v != w ==> At(s', v) == At(s, v)
  }

  lemma CommitNumbers(s: State, id: nat, w: nat)
    requires Live(s.rows, id) && At(s, w).phase.Numbering? && At(s, w).phase.id == id
    requires !NumberTaken(s.rows, id, At(s, w).phase.number)
    ensures Got(s, CommitStep(s, w), id, w, At(s, w).phase.number)
  {
  }

  /** A dispatcher about to ask for a number gets the next one, if nobody acts in
      between. */
  function Ask(w: nat): seq<Event> {
    [ReadMax(w)] + [Commit(w)]
  }

  lemma AskNumbers(s: State, id: nat, w: nat)
    requires Live(s.rows, id) && At(s, w).phase.Assigning? && At(s, w).phase.id == id
    requires !NumberTaken(s.rows, id, LastShip(s.rows) + 1)
    ensures Got(s, Run(s, Ask(w)), id, w, LastShip(s.rows) + 1)
  {
    var s1 := ReadMaxStep(s, w);
    assert At(s1, w).phase == Numbering(id, At(s, w).phase.attempt, LastShip(s.rows) + 1);
    CommitNumbers(s1, id, w);
    RunFirst(s, ReadMax(w), [Commit(w)]);
    RunNext(s1, [], Commit(w));
    assert [] + [Commit(w)] == [Commit(w)];
  }

  // ----- from a numbered issue -----

  lemma NumberWithin(rows: Rows, id: nat)
    requires Live(rows, id)
    ensures ShipOf(rows[id]) <= LastShip(rows)
  {
    LastShipIsMax(rows);
  }

  lemma NumberedAsks(s: State, id: nat, was: nat, w: nat)
    requires Labelled(s.rows) && Live(s.rows, id) && s.rows[id].value.ship == Some(was)
    requires At(s, w).phase.Assigning? && At(s, w).phase.id == id && !NumberTaken(s.rows, id, LastShip(s.rows) + 1)
    ensures Gap(Run(s, Ask(w)).rows)
  {
    AskNumbers(s, id, w);
    NumberWithin(s.rows, id);
    LostNumber(s.rows, id, was, LastShip(s.rows) + 1);
  }

  /** An issue back with the operator that has a number already gets another. */
  lemma NumberedLeavesGap(s: State, id: nat, was: nat, w: nat)
    requires Labelled(s.rows) && CanApprove(s.rows, id) && s.rows[id].value.ship == Some(was) && w !in s.dispatchers
    ensures Gap(Run(s, Retake(id, w) + Ask(w)).rows)
  {
    ApprovedIsClaimed(s, id, w);
    var s1 := Run(s, Retake(id, w));
    LabelsAfterChange(s.rows, s1.rows, id);
    FreeAfterChange(s.rows, s1.rows, id);
    NumberedAsks(s1, id, was, w);
    RunConcat(s, Retake(id, w), Ask(w));
  }

  // ----- from an issue two dispatchers are numbering -----

  /** Both hold the issue, it is unnumbered, and `v` is about to store or to ask. */
  ghost predicate Rivals(s: State, id: nat, v: nat, w: nat) {
    && Labelled(s.rows) && Live(s.rows, id) && s.rows[id].value.ship.None? && v != w
    && (At(s, v).phase.Assigning? || At(s, v).phase.Numbering?) && At(s, v).phase.id == id
    && At(s, w).phase.Assigning? && At(s, w).phase.id == id
  }

  lemma SecondNumberLeavesGap(s: State, s1: State, id: nat, v: nat, w: nat)
    requires Rivals(s, id, v, w) && Got(s, s1, id, v, LastShip(s.rows) + 1)
    ensures Gap(Run(s1, Ask(w)).rows)
  {
    var n := LastShip(s.rows) + 1;
    NextNumberFree(s.rows, id);
    ShipFolds(s.rows, id, n);
    ShipKeeps(s.rows, id, n);
    NextNumberFree(s1.rows, id);
    assert At(s1, w) == At(s, w);
    AskNumbers(s1, id, w);
    LostNumber(s1.rows, id, n, n + 1);
  }

  lemma AskingRivals(s: State, id: nat, v: nat, w: nat)
    requires Rivals(s, id, v, w) && At(s, v).phase.Assigning?
    ensures Gap(Run(s, Ask(v) + Ask(w)).rows)
  {
    NextNumberFree(s.rows, id);
    AskNumbers(s, id, v);
    SecondNumberLeavesGap(s, Run(s, Ask(v)), id, v, w);
    RunConcat(s, Ask(v), Ask(w));
  }

  lemma CommitThen(s: State, v: nat, rest: seq<Event>)
    ensures Run(s, [Commit(v)] + rest) == Run(CommitStep(s, v), rest)
  {
    RunFirst(s, Commit(v), rest);
  }

  predicate Tame(events: seq<Event>) {
    Atomic(events) && DeleteFree(events)
  }

  lemma TamePieces(id: nat, v: nat, w: nat, u: nat)
    ensures Tame(Ask(v) + Ask(w)) && Tame([Commit(v)] + Ask(w)) && Tame([Commit(v)] + (Ask(v) + Ask(w)))
    ensures Tame([Commit(v)] + (Retake(id, u) + (Ask(w) + Ask(u))))
    ensures Tame(Retake(id, w) + Ask(w)) && Tame(Retake(id, w))
  {
  }

  lemma TameConcat(a: seq<Event>, b: seq<Event>)
    requires Tame(a) && Tame(b)
    ensures Tame(a + b)
  {
  }

  /** A new dispatcher joins the one that still holds the issue. */
  lemma RivalJoins(s: State, id: nat, v: nat, w: nat)
    requires Labelled(s.rows) && CanApprove(s.rows, id) && s.rows[id].value.ship.None? && w !in s.dispatchers
    requires (At(s, v).phase.Assigning? || At(s, v).phase.Numbering?) && At(s, v).phase.id == id
    ensures var s' := Run(s, Retake(id, w));
            Rivals(s', id, v, w) && At(s', v) == At(s, v) && LastShip(s'.rows) == LastShip(s.rows)
            && s'.dispatchers == s.dispatchers[w := Dispatcher([], Assigning(id, 0))]
  {
    ApprovedIsClaimed(s, id, w);
    LabelsAfterChange(s.rows, Run(s, Retake(id, w)).rows, id);
  }

  lemma AskingLeavesGap(s: State, id: nat, v: nat, w: nat)
    requires Labelled(s.rows) && CanApprove(s.rows, id) && s.rows[id].value.ship.None? && w !in s.dispatchers
    requires At(s, v).phase.Assigning? && At(s, v).phase.id == id
    ensures Gap(Run(s, Retake(id, w) + (Ask(v) + Ask(w))).rows)
  {
    RivalJoins(s, id, v, w);
    AskingRivals(Run(s, Retake(id, w)), id, v, w);
    RunConcat(s, Retake(id, w), Ask(v) + Ask(w));
  }

  lemma FreeNumberRivals(s: State, id: nat, v: nat, w: nat)
    requires Rivals(s, id, v, w) && At(s, v).phase.Numbering? && !NumberTaken(s.rows, id, At(s, v).phase.number)
    requires 1 <= At(s, v).phase.number <= LastShip(s.rows) + 1
    ensures Gap(Run(s, [Commit(v)] + Ask(w)).rows)
  {
    NumberIsNext(s.rows, id, At(s, v).phase.number);
    CommitNumbers(s, id, v);
    SecondNumberLeavesGap(s, CommitStep(s, v), id, v, w);
    CommitThen(s, v, Ask(w));
  }

  lemma CollidedRivals(s: State, id: nat, v: nat, w: nat)
    requires Rivals(s, id, v, w) && At(s, v).phase.Numbering? && NumberTaken(s.rows, id, At(s, v).phase.number)
    requires At(s, v).phase.attempt + 1 < ATTEMPTS
    ensures Gap(Run(s, [Commit(v)] + (Ask(v) + Ask(w))).rows)
  {
    AskingRivals(CommitStep(s, v), id, v, w);
    CommitThen(s, v, Ask(v) + Ask(w));
  }

  lemma LastCollision(s: State, id: nat, v: nat)
    requires Live(s.rows, id) && At(s, v).phase.Numbering? && At(s, v).phase.id == id
    requires NumberTaken(s.rows, id, At(s, v).phase.number) && At(s, v).phase.attempt + 1 >= ATTEMPTS
    ensures var s1 := CommitStep(s, v);
            && s1.rows == s.rows[id := s1.rows[id]] && SameTag(s.rows[id], s1.rows[id]) && CanApprove(s1.rows, id)
            && s1.dispatchers.Keys == s.dispatchers.Keys + {v}
            && forall w: nat :: w != v ==> At(s1, w) == At(s, w)
  {
  }

  /** The last collision of `v` hands the issue back once more, while `w` holds it. */
  lemma CollidedLast(s: State, id: nat, v: nat, w: nat, u: nat)
    requires Rivals(s, id, v, w) && At(s, v).phase.Numbering? && NumberTaken(s.rows, id, At(s, v).phase.number)
    requires At(s, v).phase.attempt + 1 >= ATTEMPTS && u !in s.dispatchers && v in s.dispatchers
    ensures Gap(Run(CommitStep(s, v), Retake(id, u) + (Ask(w) + Ask(u))).rows)
  {
    var s1 := CommitStep(s, v);
    LastCollision(s, id, v);
    LabelsAfterChange(s.rows, s1.rows, id);
    AskingLeavesGap(s1, id, w, u);
  }

  function RivalsRun(s: State, id: nat, v: nat, w: nat, u: nat): seq<Event> {
    var p := At(s, v).phase;
    if !p.Numbering? then Ask(v) + Ask(w)
    else if !NumberTaken(s.rows, id, p.number) then [Commit(v)] + Ask(w)
    else if p.attempt + 1 < ATTEMPTS then [Commit(v)] + (Ask(v) + Ask(w))
    else [Commit(v)] + (Retake(id, u) + (Ask(w) + Ask(u)))
  }

  lemma RivalsLeaveGap(s: State, id: nat, v: nat, w: nat, u: nat)
    requires Rivals(s, id, v, w) && NumberOk(At(s, v).phase, LastShip(s.rows)) && u !in s.dispatchers
    ensures Gap(Run(s, RivalsRun(s, id, v, w, u)).rows)
  {
    var p := At(s, v).phase;
    if p.Assigning? {
      AskingRivals(s, id, v, w);
    } else if !NumberTaken(s.rows, id, p.number) {
      FreeNumberRivals(s, id, v, w);
    } else if p.attempt + 1 < ATTEMPTS {
      CollidedRivals(s, id, v, w);
    } else {
      CollidedLast(s, id, v, w, u);
      CommitThen(s, v, Retake(id, u) + (Ask(w) + Ask(u)));
    }
  }

  // ----- exactly when -----

  function HeldRun(s: State, id: nat, v: nat, w: nat): seq<Event> {
    Retake(id, w) + RivalsRun(Run(s, Retake(id, w)), id, v, w, w + 1)
  }

  lemma HeldRunTame(s: State, id: nat, v: nat, w: nat)
    ensures Tame(HeldRun(s, id, v, w))
  {
    TamePieces(id, v, w, w + 1);
    TameConcat(Retake(id, w), RivalsRun(Run(s, Retake(id, w)), id, v, w, w + 1));
  }

  lemma RivalJoinsAlone(s: State, id: nat, v: nat, w: nat)
    requires Labelled(s.rows) && CanApprove(s.rows, id) && s.rows[id].value.ship.None?
    requires (At(s, v).phase.Assigning? || At(s, v).phase.Numbering?) && At(s, v).phase.id == id
    requires NumberOk(At(s, v).phase, LastShip(s.rows)) && forall u :: u in s.dispatchers ==> u < w
    ensures var s1 := Run(s, Retake(id, w));
            Rivals(s1, id, v, w) && NumberOk(At(s1, v).phase, LastShip(s1.rows)) && w + 1 !in s1.dispatchers
  {
    RivalJoins(s, id, v, w);
  }

  lemma HeldLeavesGap(s: State, id: nat, v: nat, w: nat)
    requires Labelled(s.rows) && CanApprove(s.rows, id) && s.rows[id].value.ship.None?
    requires (At(s, v).phase.Assigning? || At(s, v).phase.Numbering?) && At(s, v).phase.id == id
    requires NumberOk(At(s, v).phase, LastShip(s.rows)) && forall u :: u in s.dispatchers ==> u < w
    ensures Gap(Run(s, HeldRun(s, id, v, w)).rows)
  {
    var s1 := Run(s, Retake(id, w));
    RivalJoinsAlone(s, id, v, w);
    RivalsLeaveGap(s1, id, v, w, w + 1);
    RunConcat(s, Retake(id, w), RivalsRun(s1, id, v, w, w + 1));
  }

  /** An issue handed back while it is held or numbered can leave a hole. */
  lemma ReturnLeavesGap(s: State, id: nat, back: Issue) returns (after: seq<Event>)
    requires Inv(s) && NumInv(s) && LabelInv(s) && Live(s.rows, id)
    requires HandedBack(s.rows[id], Some(back)) && back.tag == s.rows[id].value.tag
    requires Held(s, id) || s.rows[id].value.ship.Some?
    ensures Tame(after) && Gap(Run(Return(s, id, back), after).rows)
  {
    var s0 := Return(s, id, back);
    LabelsAfterChange(s.rows, s0.rows, id);
    var w := FreshName(s.dispatchers.Keys);
    if back.ship.Some? {
      NumberedLeavesGap(s0, id, back.ship.value, w);
      TamePieces(id, w, w, w);
      after := Retake(id, w) + Ask(w);
    } else {
      var v :| v in s.dispatchers && Holding(s.dispatchers[v].phase) == Some(id);
      assert Progress(s, s.dispatchers[v].phase) && NumberOk(s.dispatchers[v].phase, LastShip(s.rows));
      assert At(s0, v) == s.dispatchers[v];
      HeldLeavesGap(s0, id, v, w);
      HeldRunTame(s0, id, v, w);
      after := HeldRun(s0, id, v, w);
    }
  }

  lemma LabelledHasNoGap(rows: Rows)
    requires Labelled(rows)
    ensures !Gap(rows)
  {
  }

  ghost predicate CanGap(s: State) {
    exists after :: SteadyRun(s, after) && DeleteFree(after) && Gap(Run(s, after).rows)
  }

  /** Some steady continuation without deletions leaves a number unused exactly when
      the issue was handed back while somebody held it or it had a number. */
  lemma SteadyIsExact(before: seq<Event>, e: Event)
    requires SteadyRun(EMPTY, before) && DeleteFree(before) && Returns(Run(EMPTY, before), e)
    ensures var s := Run(EMPTY, before);
            CanGap(Apply(s, e)) <==> Held(s, e.id) || s.rows[e.id].value.ship.Some?
  {
    var s := Run(EMPTY, before);
    var s0 := Apply(s, e);
    ReachedState(before);
    if Held(s, e.id) || s.rows[e.id].value.ship.Some? {
      var back := s0.rows[e.id].value;
      assert s0 == Return(s, e.id, back);
      var after := ReturnLeavesGap(s, e.id, back);
      AtomicIsSteady(s0, after);
    } else {
      assert RowOk(s, e.id);
      StepNumbers(s, e);
      LabelStep(s, e);
      forall after | SteadyRun(s0, after) && DeleteFree(after) ensures !Gap(Run(s0, after).rows) {
        LabelRun(s0, after);
        LabelledHasNoGap(Run(s0, after).rows);
      }
    }
  }
}
