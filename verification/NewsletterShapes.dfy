/** Shipped issues are labelled by their bare number and unshipped ones never are. This
    holds in every run, deletions and stale hand-backs included, so the number after
    the largest is always free for whoever is not disturbed. */
module NewsletterShapes {
  import opened Text
  import opened LabelNumbering
  import opened Newsletter
  import opened NewsletterRuns
  import opened NewsletterLabels

  ghost predicate MadeLabel(tag: string) {
    exists epoch: nat, k: nat :: tag == Label(epoch, k)
  }

  ghost predicate ShapedRow(row: Option<Issue>) {
    row.Some? ==>
      match row.value.ship
      case Some(n) => row.value.tag == Numeral(n)
      case None => MadeLabel(row.value.tag)
  }

  ghost predicate Shaped(s: State) {
    && (forall i :: 0 <= i < |s.rows| ==> ShapedRow(s.rows[i]))
    && (forall w :: w in s.drafts && s.drafts[w].Named? ==> MadeLabel(s.drafts[w].tag))
  }

  ghost predicate SameShapes(rows: Rows, rows': Rows) {
    |rows'| == |rows| && forall i :: 0 <= i < |rows| ==> rows'[i].None? || SameTag(rows[i], rows'[i])
  }

  lemma OperatorShapes(s: State, e: Event)
    requires Operator(e) && !e.ReadLastShip? && !e.ReadCount? && !e.Insert?
    ensures SameShapes(s.rows, Apply(s, e).rows) && Apply(s, e).drafts == s.drafts
  {
  }

  lemma DispatcherShapes(s: State, e: Event)
    requires !Operator(e) && !e.Commit?
    ensures SameShapes(s.rows, Apply(s, e).rows) && Apply(s, e).drafts == s.drafts
  {
    if !e.Claim? && !e.Halt? && !e.Finalize? {
      RowsStay(s, e);
    }
  }

  lemma SameShapesKeep(s: State, s': State)
    requires Shaped(s) && SameShapes(s.rows, s'.rows) && s'.drafts == s.drafts
    ensures Shaped(s')
  {
    forall i | 0 <= i < |s'.rows| ensures ShapedRow(s'.rows[i]) {
      assert ShapedRow(s.rows[i]);
    }
  }

  lemma DraftingShapes(s: State, e: Event)
    requires Shaped(s) && (e.ReadLastShip? || e.ReadCount? || e.Insert?)
    ensures Shaped(Apply(s, e))
  {
    if e.ReadCount? && e.session in s.drafts && s.drafts[e.session].Reading? {
      var last := s.drafts[e.session].last;
      assert MadeLabel(Label(last, EpochCount(s.rows, last)));
    }
  }

  lemma CommitShapes(s: State, w: nat)
    requires Shaped(s)
    ensures Shaped(Apply(s, Commit(w)))
  {
    var s' := Apply(s, Commit(w));
    forall i | 0 <= i < |s'.rows| ensures ShapedRow(s'.rows[i]) {
      assert ShapedRow(s.rows[i]);
    }
  }

  lemma ShapesStep(s: State, e: Event)
    requires Shaped(s)
    ensures Shaped(Apply(s, e))
  {
    if e.ReadLastShip? || e.ReadCount? || e.Insert? {
      DraftingShapes(s, e);
    } else if e.Commit? {
      CommitShapes(s, e.w);
    } else {
      if Operator(e) {
        OperatorShapes(s, e);
      } else {
        DispatcherShapes(s, e);
      }
      SameShapesKeep(s, Apply(s, e));
    }
  }

  lemma {:induction false} ShapesRun(s: State, events: seq<Event>)
    requires Shaped(s)
    ensures Shaped(Run(s, events))
    decreases events
  {
    if events != [] {
      ShapesStep(s, events[0]);
      ShapesRun(Apply(s, events[0]), events[1..]);
    }
  }

  /** In every state of every run the number after the largest is carried by no issue,
      neither as its ship number nor as its label. */
  lemma NextNumberIsFree(events: seq<Event>, id: nat)
    ensures var s := Run(EMPTY, events);
            Shaped(s) && !NumberTaken(s.rows, id, LastShip(s.rows) + 1)
  {
    ShapesRun(EMPTY, events);
    ShapedIsFree(Run(EMPTY, events), id);
  }

  lemma ShapedIsFree(s: State, id: nat)
    requires Shaped(s)
    ensures !NumberTaken(s.rows, id, LastShip(s.rows) + 1)
  {
    var last := LastShip(s.rows);
    LastShipIsMax(s.rows);
    forall i | 0 <= i < |s.rows| ensures !Numbered(s.rows[i], last + 1) && !Carries(s.rows[i], Numeral(last + 1)) {
      assert ShapedRow(s.rows[i]);
      ShippedLabelHasNoEpoch(last + 1);
      if s.rows[i].Some? {
        if s.rows[i].value.ship.Some? {
          assert ShipOf(s.rows[i]) <= last;
          if Carries(s.rows[i], Numeral(last + 1)) {
            NumeralInjective(s.rows[i].value.ship.value, last + 1);
          }
        } else {
          var epoch: nat, k: nat :| s.rows[i].value.tag == Label(epoch, k);
          LabelParses(epoch, k);
        }
      }
    }
  }

  lemma {:induction false} SameShips(rows: Rows, rows': Rows)
    requires |rows| == |rows'| && forall i :: 0 <= i < |rows| ==> ShipOf(rows[i]) == ShipOf(rows'[i])
    ensures LastShip(rows') == LastShip(rows)
  {
    if rows != [] {
      SameShips(rows[..|rows| - 1], rows'[..|rows| - 1]);
    }
  }
}
