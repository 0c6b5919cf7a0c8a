/** Ship numbers and display labels in runs without deletions: numbers are 1..n
    with no gap, the letters of the current epoch are a..(count-1) with no gap,
    and the next label is free. */
module NewsletterLabels {
  import opened Text
  import opened LabelNumbering
  import opened Newsletter
  import opened NewsletterRuns
  import opened NewsletterRaces

  // ----- the two folds over the table -----

  lemma {:induction false} LastShipIsMax(rows: Rows)
    ensures forall i :: 0 <= i < |rows| ==> ShipOf(rows[i]) <= LastShip(rows)
    ensures LastShip(rows) == 0 || exists i :: 0 <= i < |rows| && Numbered(rows[i], LastShip(rows))
  {
    if rows != [] {
      var n := |rows| - 1;
      LastShipIsMax(rows[..n]);
      if LastShip(rows) == LastShip(rows[..n]) != 0 {
        var i :| 0 <= i < n && Numbered(rows[..n][i], LastShip(rows));
        assert Numbered(rows[i], LastShip(rows));
      } else if LastShip(rows) != 0 {
        assert Numbered(rows[n], LastShip(rows));
      }
    }
  }

  predicate SameTag(a: Option<Issue>, b: Option<Issue>) {
    a.Some? && b.Some? && a.value.tag == b.value.tag && a.value.ship == b.value.ship
  }

  ghost predicate SameTags(rows: Rows, rows': Rows) {
    |rows| == |rows'| && forall i :: 0 <= i < |rows| ==> SameTag(rows[i], rows'[i])
  }

  lemma {:induction false} SameFolds(rows: Rows, rows': Rows, epoch: nat)
    requires SameTags(rows, rows')
    ensures LastShip(rows') == LastShip(rows) && EpochCount(rows', epoch) == EpochCount(rows, epoch)
  {
    if rows != [] {
      var n := |rows| - 1;
      assert forall i :: 0 <= i < n ==> SameTag(rows[i], rows'[i]);
      SameFolds(rows[..n], rows'[..n], epoch);
      assert SameTag(rows[n], rows'[n]);
    }
  }

  lemma {:induction false} EmptyEpoch(rows: Rows, epoch: nat)
    requires forall i :: 0 <= i < |rows| ==> !InEpoch(rows[i], epoch)
    ensures EpochCount(rows, epoch) == 0
  {
    if rows != [] {
      EmptyEpoch(rows[..|rows| - 1], epoch);
    }
  }

  lemma FoldsAppend(rows: Rows, issue: Issue, epoch: nat)
    ensures LastShip(rows + [Some(issue)]) == if ShipOf(Some(issue)) > LastShip(rows) then ShipOf(Some(issue)) else LastShip(rows)
    ensures EpochCount(rows + [Some(issue)], epoch) == EpochCount(rows, epoch) + if InEpoch(Some(issue), epoch) then 1 else 0
  {
    var r := rows + [Some(issue)];
    assert r[..|r| - 1] == rows && r[|r| - 1] == Some(issue);
  }

  // ----- the invariant -----

  /** A label given out in epoch `last` or before, below `bound` in `last` itself. */
  ghost predicate Placed(tag: string, last: nat, bound: nat) {
    exists e: nat, k: nat :: PlacedAt(tag, e, k, last, bound)
  }

  predicate PlacedAt(tag: string, e: nat, k: nat, last: nat, bound: nat) {
    tag == Label(e, k) && e <= last && (e == last ==> k < bound)
  }

  ghost predicate TagOk(row: Option<Issue>, last: nat, count: nat) {
    row.Some? ==>
      match row.value.ship
      case Some(n) => n >= 1 && row.value.tag == Numeral(n)
      case None => Placed(row.value.tag, last, count)
  }

  /** Some unshipped row carries letter `k` of the epoch. */
  predicate LetterUsed(rows: Rows, epoch: nat, k: nat) {
    exists i :: 0 <= i < |rows| && Unshipped(rows[i]) && Carries(rows[i], Label(epoch, k))
  }

  predicate Unshipped(row: Option<Issue>) {
    row.Some? && row.value.ship.None?
  }

  predicate NumberUsed(rows: Rows, n: nat) {
    exists i :: 0 <= i < |rows| && Numbered(rows[i], n)
  }

  ghost predicate UniqueTags(rows: Rows) {
    forall i, j :: 0 <= i < j < |rows| && rows[i].Some? && rows[j].Some? ==> rows[i].value.tag != rows[j].value.tag
  }

  ghost predicate Labelled(rows: Rows) {
    var last := LastShip(rows);
    var count := EpochCount(rows, last);
    && AllLive(rows) && TagsOk(rows, last, count) && UniqueTags(rows)
    && NumbersDense(rows, last) && LettersDense(rows, last, count)
  }

  ghost predicate AllLive(rows: Rows) {
    forall i :: 0 <= i < |rows| ==> rows[i].Some?
  }

  ghost predicate TagsOk(rows: Rows, last: nat, count: nat) {
    forall i {:trigger TagOk(rows[i], last, count)} :: 0 <= i < |rows| ==> TagOk(rows[i], last, count)
  }

  ghost predicate NumbersDense(rows: Rows, last: nat) {
    forall n: nat :: 1 <= n <= last ==> NumberUsed(rows, n)
  }

  ghost predicate LettersDense(rows: Rows, epoch: nat, count: nat) {
    forall k: nat :: k < count ==> LetterUsed(rows, epoch, k)
  }

  /** What a drafting session has read is of this epoch or an earlier one. */
  ghost predicate DraftOk(d: Drafting, last: nat, bound: nat) {
    match d
    case Reading(l) => l <= last
    case Named(tag) => Placed(tag, last, bound)
  }

  ghost predicate DraftsPlaced(drafts: map<nat, Drafting>, last: nat, bound: nat) {
    forall c :: c in drafts ==> DraftOk(drafts[c], last, bound)
  }

  predicate NumberOk(p: Phase, last: nat) {
    p.Numbering? ==> 1 <= p.number <= last + 1
  }

  ghost predicate NumbersOk(dispatchers: map<nat, Dispatcher>, last: nat) {
    forall w :: w in dispatchers ==> NumberOk(dispatchers[w].phase, last)
  }

  ghost predicate Pending(s: State) {
    var last := LastShip(s.rows);
    DraftsPlaced(s.drafts, last, EpochCount(s.rows, last) + 1) && NumbersOk(s.dispatchers, last)
  }

  ghost predicate LabelInv(s: State) {
    Labelled(s.rows) && Pending(s)
  }

  // ----- steps that leave tags alone -----

  lemma SameTagsKeep(rows: Rows, rows': Rows)
    requires Labelled(rows) && SameTags(rows, rows')
    ensures Labelled(rows')
  {
    var last := LastShip(rows);
    SameFolds(rows, rows', last);
    var count := EpochCount(rows, last);
    forall i | 0 <= i < |rows'| ensures TagOk(rows'[i], last, count) {
      assert SameTag(rows[i], rows'[i]) && TagOk(rows[i], last, count);
    }
    forall n: nat | 1 <= n <= last ensures NumberUsed(rows', n) {
      assert NumberUsed(rows, n);
      var i :| 0 <= i < |rows| && Numbered(rows[i], n);
      assert SameTag(rows[i], rows'[i]) && Numbered(rows'[i], n);
    }
    forall k: nat | k < count ensures LetterUsed(rows', last, k) {
      assert LetterUsed(rows, last, k);
      var i :| 0 <= i < |rows| && Unshipped(rows[i]) && Carries(rows[i], Label(last, k));
      assert SameTag(rows[i], rows'[i]) && Unshipped(rows'[i]) && Carries(rows'[i], Label(last, k));
    }
    forall i, j | 0 <= i < j < |rows'| && rows'[i].Some? && rows'[j].Some? ensures rows'[i].value.tag != rows'[j].value.tag {
      assert SameTag(rows[i], rows'[i]) && SameTag(rows[j], rows'[j]);
    }
  }

  // ----- a new issue -----

  /** A stale label of the current epoch is either taken or exactly the next one. */
  lemma FreshIsNext(rows: Rows, e: nat, k: nat)
    requires Labelled(rows) && PlacedAt(Label(e, k), e, k, LastShip(rows), EpochCount(rows, LastShip(rows)) + 1)
    requires !TagTaken(rows, Label(e, k)) && e == LastShip(rows)
    ensures k == EpochCount(rows, LastShip(rows))
  {
    assert k < EpochCount(rows, LastShip(rows)) ==> LetterUsed(rows, e, k);
  }

  lemma PlacedGrows(tag: string, last: nat, bound: nat, bound': nat)
    requires Placed(tag, last, bound) && bound <= bound'
    ensures Placed(tag, last, bound')
  {
    var e: nat, k: nat :| PlacedAt(tag, e, k, last, bound);
    assert PlacedAt(tag, e, k, last, bound');
  }

  lemma PlacedEarlier(tag: string, last: nat, bound: nat, last': nat, bound': nat)
    requires Placed(tag, last, bound) && last < last'
    ensures Placed(tag, last', bound') && EpochOf(tag) != Some(last')
  {
    var e: nat, k: nat :| PlacedAt(tag, e, k, last, bound);
    assert PlacedAt(tag, e, k, last', bound');
    LabelParses(e, k);
  }

  lemma UsesSurvive(rows: Rows, more: Rows, last: nat, epoch: nat, count: nat)
    requires NumbersDense(rows, last) && LettersDense(rows, epoch, count)
    ensures NumbersDense(rows + more, last) && LettersDense(rows + more, epoch, count)
  {
    var rows' := rows + more;
    forall n: nat | 1 <= n <= last ensures NumberUsed(rows', n) {
      assert NumberUsed(rows, n);
      var i :| 0 <= i < |rows| && Numbered(rows[i], n);
      assert Numbered(rows'[i], n);
    }
    forall k: nat | k < count ensures LetterUsed(rows', epoch, k) {
      assert LetterUsed(rows, epoch, k);
      var i :| 0 <= i < |rows| && Unshipped(rows[i]) && Carries(rows[i], Label(epoch, k));
      assert Unshipped(rows'[i]) && Carries(rows'[i], Label(epoch, k));
    }
  }

  lemma InsertFolds(rows: Rows, e: nat, k: nat, kind: Status)
    requires Labelled(rows) && PlacedAt(Label(e, k), e, k, LastShip(rows), EpochCount(rows, LastShip(rows)) + 1)
    requires !TagTaken(rows, Label(e, k))
    ensures var rows' := rows + [Some(Fresh(Label(e, k), kind))];
            var last := LastShip(rows);
            && LastShip(rows') == last
            && EpochCount(rows', last) == EpochCount(rows, last) + (if e == last then 1 else 0)
            && (e == last ==> k == EpochCount(rows, last))
  {
    FoldsAppend(rows, Fresh(Label(e, k), kind), LastShip(rows));
    LabelParses(e, k);
    if e == LastShip(rows) {
      FreshIsNext(rows, e, k);
    }
  }

  lemma InsertTags(rows: Rows, e: nat, k: nat, kind: Status)
    requires Labelled(rows) && PlacedAt(Label(e, k), e, k, LastShip(rows), EpochCount(rows, LastShip(rows)) + 1)
    requires !TagTaken(rows, Label(e, k))
    ensures var rows' := rows + [Some(Fresh(Label(e, k), kind))];
            UniqueTags(rows') && AllLive(rows') && TagsOk(rows', LastShip(rows), EpochCount(rows', LastShip(rows)))
  {
    var rows', last := rows + [Some(Fresh(Label(e, k), kind))], LastShip(rows);
    InsertFolds(rows, e, k, kind);
    var count, count' := EpochCount(rows, last), EpochCount(rows', last);
    assert PlacedAt(Label(e, k), e, k, last, count');
    forall i | 0 <= i < |rows'| ensures rows'[i].Some? && TagOk(rows'[i], last, count') {
      if i < |rows| {
        assert TagOk(rows[i], last, count) && rows'[i] == rows[i];
        if rows[i].value.ship.None? {
          PlacedGrows(rows[i].value.tag, last, count, count');
        }
      }
    }
    forall i, j | 0 <= i < j < |rows'| && rows'[i].Some? && rows'[j].Some? ensures rows'[i].value.tag != rows'[j].value.tag {
      if j == |rows| {
        assert !Carries(rows[i], Label(e, k));
      }
    }
  }

  lemma InsertKeeps(rows: Rows, e: nat, k: nat, kind: Status)
    requires Labelled(rows) && PlacedAt(Label(e, k), e, k, LastShip(rows), EpochCount(rows, LastShip(rows)) + 1)
    requires !TagTaken(rows, Label(e, k))
    ensures Labelled(rows + [Some(Fresh(Label(e, k), kind))])
  {
    var rows', last := rows + [Some(Fresh(Label(e, k), kind))], LastShip(rows);
    InsertFolds(rows, e, k, kind);
    InsertTags(rows, e, k, kind);
    UsesSurvive(rows, [Some(Fresh(Label(e, k), kind))], last, last, EpochCount(rows, last));
    LastIsUsed(rows, Fresh(Label(e, k), kind), last, EpochCount(rows, last));
  }

  lemma LastIsUsed(rows: Rows, issue: Issue, epoch: nat, k: nat)
    requires issue.ship.None?
    ensures issue.tag == Label(epoch, k) ==> LetterUsed(rows + [Some(issue)], epoch, k)
  {
    var rows' := rows + [Some(issue)];
    assert rows'[|rows|] == Some(issue) && Unshipped(rows'[|rows|]);
    assert issue.tag == Label(epoch, k) ==> Carries(rows'[|rows|], Label(epoch, k));
  }

  // ----- a new ship number -----

  lemma NumberIsNext(rows: Rows, id: nat, n: nat)
    requires Labelled(rows) && id < |rows| && rows[id].Some? && rows[id].value.ship.None?
    requires 1 <= n <= LastShip(rows) + 1 && !NumberTaken(rows, id, n)
    ensures n == LastShip(rows) + 1
  {
    UsedIsTaken(rows, id, n);
    assert n <= LastShip(rows) ==> NumberUsed(rows, n);
  }

  lemma UsedIsTaken(rows: Rows, id: nat, n: nat)
    requires id < |rows| && rows[id].Some? && rows[id].value.ship.None?
    ensures NumberUsed(rows, n) ==> NumberTaken(rows, id, n)
  {
    if NumberUsed(rows, n) {
      var i :| 0 <= i < |rows| && Numbered(rows[i], n);
      assert i != id && Numbered(rows[i], n);
    }
  }

  lemma ShipFolds(rows: Rows, id: nat, n: nat)
    requires Labelled(rows) && id < |rows| && n == LastShip(rows) + 1
    ensures var rows' := Set(rows, id, rows[id].value.(ship := Some(n), tag := Numeral(n)));
            LastShip(rows') == n && EpochCount(rows', n) == 0
  {
    var rows' := Set(rows, id, rows[id].value.(ship := Some(n), tag := Numeral(n)));
    LastShipIsMax(rows);
    LastShipIsMax(rows');
    assert ShipOf(rows'[id]) == n;
    assert forall i :: 0 <= i < |rows'| && i != id ==> ShipOf(rows'[i]) == ShipOf(rows[i]);
    var count := EpochCount(rows, LastShip(rows));
    forall i | 0 <= i < |rows'| ensures !InEpoch(rows'[i], n) {
      assert TagOk(rows[i], LastShip(rows), count);
      if i != id && rows[i].value.ship.None? {
        PlacedEarlier(rows[i].value.tag, LastShip(rows), count, n, 0);
      }
    }
    EmptyEpoch(rows', n);
  }

  lemma ShipKeeps(rows: Rows, id: nat, n: nat)
    requires Labelled(rows) && id < |rows| && rows[id].value.ship.None? && !NumberTaken(rows, id, n)
    requires n == LastShip(rows) + 1
    ensures Labelled(Set(rows, id, rows[id].value.(ship := Some(n), tag := Numeral(n))))
  {
    var rows' := Set(rows, id, rows[id].value.(ship := Some(n), tag := Numeral(n)));
    var last, count := LastShip(rows), EpochCount(rows, LastShip(rows));
    ShipFolds(rows, id, n);
    forall i | 0 <= i < |rows'| ensures TagOk(rows'[i], n, 0) {
      assert TagOk(rows[i], last, count);
      if i != id && rows[i].value.ship.None? {
        PlacedEarlier(rows[i].value.tag, last, count, n, 0);
      }
    }
    forall m: nat | 1 <= m <= n ensures NumberUsed(rows', m) {
      if m == n {
        assert Numbered(rows'[id], n);
      } else {
        assert NumberUsed(rows, m);
        var i :| 0 <= i < |rows| && Numbered(rows[i], m);
        assert i != id && Numbered(rows'[i], m);
      }
    }
    forall i, j | 0 <= i < j < |rows'| && rows'[i].Some? && rows'[j].Some? ensures rows'[i].value.tag != rows'[j].value.tag {
      assert j != id ==> !(j != id && Carries(rows[j], Numeral(n)));
      assert i != id ==> !(i != id && Carries(rows[i], Numeral(n)));
    }
  }

  // ----- runs -----

  predicate DeleteFree(events: seq<Event>) {
    forall e :: e in events ==> !e.Delete?
  }

  /** A dispatcher that holds a number held it before or has just read it. */
  ghost predicate NumbersFrom(before: map<nat, Dispatcher>, after: map<nat, Dispatcher>, last: nat) {
    forall w :: w in after && after[w].phase.Numbering? ==>
      after[w].phase.number == last + 1 || (w in before && after[w].phase == before[w].phase)
  }

  lemma NumbersKeep(before: map<nat, Dispatcher>, after: map<nat, Dispatcher>, last: nat, last': nat)
    requires NumbersOk(before, last) && NumbersFrom(before, after, last') && last <= last'
    ensures NumbersOk(after, last')
  {
    forall w | w in after ensures NumberOk(after[w].phase, last') {
      assert w in before ==> NumberOk(before[w].phase, last);
    }
  }

  lemma DraftsKeep(before: map<nat, Drafting>, after: map<nat, Drafting>, last: nat, bound: nat, last': nat, bound': nat)
    requires DraftsPlaced(before, last, bound)
    requires last < last' || (last == last' && bound <= bound')
    requires forall c :: c in after ==> c in before && after[c] == before[c]
    ensures DraftsPlaced(after, last', bound')
  {
    forall c | c in after ensures DraftOk(after[c], last', bound') {
      assert DraftOk(before[c], last, bound);
      if before[c].Named? {
        PlacedLater(before[c].tag, last, bound, last', bound');
      }
    }
  }

  /** Pending labels and numbers stay good as the folds grow. */
  lemma PendingKeeps(s: State, s': State)
    requires Pending(s)
    requires var last, last' := LastShip(s.rows), LastShip(s'.rows);
             last < last' || (last == last' && EpochCount(s.rows, last) <= EpochCount(s'.rows, last'))
    requires forall c :: c in s'.drafts ==> c in s.drafts && s'.drafts[c] == s.drafts[c]
    requires NumbersFrom(s.dispatchers, s'.dispatchers, LastShip(s'.rows))
    ensures Pending(s')
  {
    var last, last' := LastShip(s.rows), LastShip(s'.rows);
    DraftsKeep(s.drafts, s'.drafts, last, EpochCount(s.rows, last) + 1, last', EpochCount(s'.rows, last') + 1);
    NumbersKeep(s.dispatchers, s'.dispatchers, last, last');
  }

  lemma PlacedLater(tag: string, last: nat, bound: nat, last': nat, bound': nat)
    requires Placed(tag, last, bound)
    requires last < last' || (last == last' && bound <= bound')
    ensures Placed(tag, last', bound')
  {
    if last < last' {
      PlacedEarlier(tag, last, bound, last', bound');
    } else {
      PlacedGrows(tag, last, bound, bound');
    }
  }

  /** A label counted in an epoch that has closed meanwhile is still a label of an
      earlier epoch. */
  lemma CountedIsPlaced(rows: Rows, l: nat)
    requires l <= LastShip(rows)
    ensures Placed(Label(l, EpochCount(rows, l)), LastShip(rows), EpochCount(rows, LastShip(rows)) + 1)
  {
    assert PlacedAt(Label(l, EpochCount(rows, l)), l, EpochCount(rows, l), LastShip(rows), EpochCount(rows, LastShip(rows)) + 1);
  }

  lemma CountStepKeeps(s: State, session: nat)
    requires LabelInv(s)
    ensures LabelInv(CountStep(s, session))
  {
    if session in s.drafts && s.drafts[session].Reading? {
      assert DraftOk(s.drafts[session], LastShip(s.rows), EpochCount(s.rows, LastShip(s.rows)) + 1);
      CountedIsPlaced(s.rows, s.drafts[session].last);
    }
  }

  lemma InsertRows(rows: Rows, tag: string, kind: Status)
    requires Labelled(rows) && Placed(tag, LastShip(rows), EpochCount(rows, LastShip(rows)) + 1) && !TagTaken(rows, tag)
    ensures var rows' := rows + [Some(Fresh(tag, kind))];
            Labelled(rows') && LastShip(rows') == LastShip(rows) && EpochCount(rows', LastShip(rows)) >= EpochCount(rows, LastShip(rows))
  {
    var last := LastShip(rows);
    var e: nat, k: nat :| PlacedAt(tag, e, k, last, EpochCount(rows, last) + 1);
    InsertKeeps(rows, e, k, kind);
    InsertFolds(rows, e, k, kind);
  }

  lemma InsertLabelStep(s: State, session: nat, kind: Status)
    requires LabelInv(s)
    ensures LabelInv(InsertStep(s, session, kind))
  {
    if session in s.drafts && s.drafts[session].Named? && NewKind(kind) && !TagTaken(s.rows, s.drafts[session].tag) {
      assert DraftOk(s.drafts[session], LastShip(s.rows), EpochCount(s.rows, LastShip(s.rows)) + 1);
      InsertRows(s.rows, s.drafts[session].tag, kind);
    }
    PendingKeeps(s, InsertStep(s, session, kind));
  }

  lemma CommitLabelStep(s: State, w: nat)
    requires Inv(s) && NumInv(s) && LabelInv(s)
    ensures LabelInv(CommitStep(s, w))
  {
    var p := At(s, w).phase;
    if p.Numbering? {
      Sole(s, w);
      assert Live(s.rows, p.id) && UnnumberedYet(s.rows, p);
      if !NumberTaken(s.rows, p.id, p.number) {
        ShippedLabelStep(s, CommitStep(s, w), p.id, p.number);
      } else {
        CollisionStep(s, w);
        SameTagsLabelled(s, CommitStep(s, w));
      }
    }
  }

  lemma CollisionStep(s: State, w: nat)
    requires AllLive(s.rows)
    requires var p := At(s, w).phase; p.Numbering? && Live(s.rows, p.id) && NumberTaken(s.rows, p.id, p.number)
    ensures SameTags(s.rows, CommitStep(s, w).rows)
  {
  }

  lemma ShippedLabelStep(s: State, s': State, id: nat, n: nat)
    requires LabelInv(s) && Live(s.rows, id) && s.rows[id].value.ship.None?
    requires 1 <= n <= LastShip(s.rows) + 1 && !NumberTaken(s.rows, id, n)
    requires s'.rows == Set(s.rows, id, s.rows[id].value.(ship := Some(n), tag := Numeral(n))) && s'.drafts == s.drafts
    requires NumbersFrom(s.dispatchers, s'.dispatchers, n)
    ensures LabelInv(s')
  {
    NumberIsNext(s.rows, id, n);
    ShipFolds(s.rows, id, n);
    ShipKeeps(s.rows, id, n);
    PendingKeeps(s, s');
  }

  lemma SameTagsLabelled(s: State, s': State)
    requires LabelInv(s) && SameTags(s.rows, s'.rows) && s'.drafts == s.drafts
    requires NumbersFrom(s.dispatchers, s'.dispatchers, LastShip(s.rows))
    ensures LabelInv(s')
  {
    SameTagsKeep(s.rows, s'.rows);
    SameFolds(s.rows, s'.rows, LastShip(s.rows));
    PendingKeeps(s, s');
  }

  lemma TagsStay(s: State, e: Event)
    requires AllLive(s.rows) && !e.ReadLastShip? && !e.ReadCount? && !e.Insert? && !e.Commit? && !e.Delete?
    ensures SameTags(s.rows, Apply(s, e).rows) && Apply(s, e).drafts == s.drafts
  {
    if Operator(e) {
      OperatorTagsStay(s, e);
    } else {
      DispatcherTagsStay(s, e);
    }
  }

  lemma OperatorTagsStay(s: State, e: Event)
    requires AllLive(s.rows) && Operator(e) && !e.ReadLastShip? && !e.ReadCount? && !e.Insert? && !e.Delete?
    ensures SameTags(s.rows, Apply(s, e).rows) && Apply(s, e).drafts == s.drafts
  {
  }

  lemma DispatcherTagsStay(s: State, e: Event)
    requires AllLive(s.rows) && !Operator(e) && !e.Commit?
    ensures SameTags(s.rows, Apply(s, e).rows) && Apply(s, e).drafts == s.drafts
  {
    if !e.Claim? && !e.Halt? && !e.Finalize? {
      RowsStay(s, e);
    }
  }

  lemma RowsStay(s: State, e: Event)
    requires !Operator(e) && !e.Claim? && !e.Commit? && !e.Halt? && !e.Finalize?
    ensures Apply(s, e).rows == s.rows && Apply(s, e).drafts == s.drafts
  {
  }

  lemma NumbersStay(s: State, e: Event)
    requires !e.ReadLastShip? && !e.ReadCount? && !e.Insert? && !e.Commit? && !e.Delete?
    ensures NumbersFrom(s.dispatchers, Apply(s, e).dispatchers, LastShip(s.rows))
  {
    if !Operator(e) {
      DispatcherNumbersStay(s, e);
    }
  }

  lemma DispatcherNumbersStay(s: State, e: Event)
    requires !Operator(e) && !e.Commit?
    ensures NumbersFrom(s.dispatchers, Apply(s, e).dispatchers, LastShip(s.rows))
  {
    OthersSame(s, e);
    OwnNumberStays(s, e);
  }

  lemma OwnNumberStays(s: State, e: Event)
    requires !Operator(e)
    ensures var after := Apply(s, e).dispatchers;
            e.w in after && after[e.w].phase.Numbering? ==>
              after[e.w].phase.number == LastShip(s.rows) + 1 || (e.w in s.dispatchers && after[e.w].phase == s.dispatchers[e.w].phase)
  {
  }

  lemma OtherLabelStep(s: State, e: Event)
    requires LabelInv(s) && !e.ReadLastShip? && !e.ReadCount? && !e.Insert? && !e.Commit? && !e.Delete?
    ensures LabelInv(Apply(s, e))
  {
    var s' := Apply(s, e);
    TagsStay(s, e);
    NumbersStay(s, e);
    SameTagsLabelled(s, s');
  }

  lemma LabelStep(s: State, e: Event)
    requires Inv(s) && NumInv(s) && LabelInv(s) && !e.Delete?
    ensures LabelInv(Apply(s, e))
  {
    match e
    case ReadLastShip(session) =>
    case ReadCount(session) => CountStepKeeps(s, session);
    case Insert(session, kind) => InsertLabelStep(s, session, kind);
    case Commit(w) => CommitLabelStep(s, w);
    case _ => OtherLabelStep(s, e);
  }

  lemma {:induction false} LabelRun(s: State, events: seq<Event>)
    requires Inv(s) && NumInv(s) && LabelInv(s) && SteadyRun(s, events) && DeleteFree(events)
    ensures Inv(Run(s, events)) && NumInv(Run(s, events)) && LabelInv(Run(s, events))
    decreases events
  {
    if events != [] {
      StepNumbers(s, events[0]);
      LabelStep(s, events[0]);
      assert DeleteFree(events[1..]);
      LabelRun(Apply(s, events[0]), events[1..]);
    }
  }

  lemma ReachedState(events: seq<Event>)
    requires SteadyRun(EMPTY, events) && DeleteFree(events)
    ensures Inv(Run(EMPTY, events)) && NumInv(Run(EMPTY, events)) && LabelInv(Run(EMPTY, events))
  {
    EmptyInv();
    LabelRun(EMPTY, events);
  }

  /** Ship numbers are at all times 1..n: every one used, by one issue only, and
      no other number. */
  lemma ShipNumbersGapless(events: seq<Event>)
    requires SteadyRun(EMPTY, events) && DeleteFree(events)
    ensures var rows := Run(EMPTY, events).rows;
            && (forall n: nat :: NumberUsed(rows, n) <==> 1 <= n <= LastShip(rows))
            && (forall i, j :: 0 <= i < j < |rows| && rows[i].Some? && rows[j].Some? && rows[i].value.ship.Some?
                  ==> rows[i].value.ship != rows[j].value.ship)
  {
    ReachedState(events);
    var rows := Run(EMPTY, events).rows;
    LastShipIsMax(rows);
    var count := EpochCount(rows, LastShip(rows));
    assert forall i :: 0 <= i < |rows| ==> TagOk(rows[i], LastShip(rows), count);
    forall n: nat | NumberUsed(rows, n) ensures 1 <= n <= LastShip(rows) {
      var i :| 0 <= i < |rows| && Numbered(rows[i], n);
      assert TagOk(rows[i], LastShip(rows), count) && ShipOf(rows[i]) == n;
    }
  }

  lemma NextLetterFree(rows: Rows)
    requires Labelled(rows)
    ensures !TagTaken(rows, NextLabel(rows))
  {
    var last, count := LastShip(rows), EpochCount(rows, LastShip(rows));
    forall i | 0 <= i < |rows| ensures !Carries(rows[i], NextLabel(rows)) {
      assert TagOk(rows[i], last, count);
      LabelParses(last, count);
      if rows[i].value.ship.Some? {
        ShippedLabelHasNoEpoch(rows[i].value.ship.value);
      } else {
        var e: nat, k: nat :| PlacedAt(rows[i].value.tag, e, k, last, count);
        if rows[i].value.tag == Label(last, count) {
          LabelInjective(e, k, last, count);
        }
      }
    }
  }

  /** The label made by the second query is free, whatever rows are drafts, skipped
      or shipped, if nothing has shipped since the first. */
  lemma NextLabelIsFree(events: seq<Event>, session: nat)
    requires SteadyRun(EMPTY, events) && DeleteFree(events)
    requires var s := Run(EMPTY, events); session in s.drafts && s.drafts[session] == Reading(LastShip(s.rows))
    ensures var s := Run(EMPTY, events + [ReadCount(session)]);
            session in s.drafts && s.drafts[session].Named? && !TagTaken(s.rows, s.drafts[session].tag)
  {
    ReachedState(events);
    RunNext(EMPTY, events, ReadCount(session));
    NextLetterFree(Run(EMPTY, events).rows);
  }

  lemma {:induction false} EpochCountSet(rows: Rows, id: nat, row: Option<Issue>, epoch: nat)
    requires id < |rows|
    ensures EpochCount(rows[id := row], epoch)
         == EpochCount(rows, epoch) - (if InEpoch(rows[id], epoch) then 1 else 0) + (if InEpoch(row, epoch) then 1 else 0)
  {
    var n := |rows| - 1;
    if id == n {
      assert rows[id := row][..n] == rows[..n];
    } else {
      assert rows[id := row][..n] == rows[..n][id := row];
      EpochCountSet(rows[..n], id, row, epoch);
    }
  }

  /** The label given out last in its epoch. */
  predicate IsNewest(rows: Rows, epoch: nat, tag: string) {
    EpochCount(rows, epoch) > 0 && tag == Label(epoch, EpochCount(rows, epoch) - 1)
  }

  /** The table after `id` has shipped as number `n`. */
  function Shipped(rows: Rows, id: nat, n: nat): Rows
    requires Live(rows, id)
  {
    Set(rows, id, rows[id].value.(ship := Some(n), tag := Numeral(n)))
  }

  lemma TakenElsewhere(rows: Rows, id: nat, n: nat, epoch: nat, k: nat)
    requires Live(rows, id) && UniqueTags(rows)
    ensures TagTaken(Shipped(rows, id, n), Label(epoch, k)) <==> TagTaken(rows, Label(epoch, k)) && rows[id].value.tag != Label(epoch, k)
  {
    var rows', tag := Shipped(rows, id, n), Label(epoch, k);
    LabelParses(epoch, k);
    ShippedLabelHasNoEpoch(n);
    assert !Carries(rows'[id], tag);
    if i :| 0 <= i < |rows| && i != id && Carries(rows[i], tag) {
      assert Carries(rows'[i], tag);
    }
  }

  lemma ShippedFrees(rows: Rows, id: nat, n: nat)
    requires Labelled(rows) && Live(rows, id) && rows[id].value.ship.None?
    ensures var last, tag := LastShip(rows), rows[id].value.tag;
            TagTaken(Shipped(rows, id, n), Label(last, EpochCount(Shipped(rows, id, n), last)))
            <==> EpochOf(tag) == Some(last) && !IsNewest(rows, last, tag)
  {
    var last, count := LastShip(rows), EpochCount(rows, LastShip(rows));
    EpochCountSet(rows, id, Shipped(rows, id, n)[id], last);
    var k := EpochCount(Shipped(rows, id, n), last);
    TakenElsewhere(rows, id, n, last, k);
    if EpochOf(rows[id].value.tag) == Some(last) {
      assert k == count - 1 && LetterUsed(rows, last, k);
    } else {
      NextLetterFree(rows);
    }
  }

  /** When an issue ships between the two queries, the label made from them is
      already carried by another issue exactly when the issue that shipped was of
      that epoch and not its newest. The insert then refuses it. */
  lemma ShipBetweenReadsIff(events: seq<Event>, session: nat, w: nat)
    requires SteadyRun(EMPTY, events) && DeleteFree(events)
    requires var s := Run(EMPTY, events);
             var p := At(s, w).phase;
             && session in s.drafts && s.drafts[session] == Reading(LastShip(s.rows))
             && p.Numbering? && Live(s.rows, p.id) && !NumberTaken(s.rows, p.id, p.number)
    ensures var s := Run(EMPTY, events);
            var last, tag := LastShip(s.rows), s.rows[At(s, w).phase.id].value.tag;
            var s' := Run(EMPTY, events + [Commit(w)] + [ReadCount(session)]);
            && session in s'.drafts && s'.drafts[session].Named?
            && (TagTaken(s'.rows, s'.drafts[session].tag)
                <==> EpochOf(tag) == Some(last) && !IsNewest(s.rows, last, tag))
  {
    var s := Run(EMPTY, events);
    var p := At(s, w).phase;
    ReachedState(events);
    assert UnnumberedYet(s.rows, p);
    NumberIsNext(s.rows, p.id, p.number);
    ShippedFrees(s.rows, p.id, p.number);
    RunNext(EMPTY, events, Commit(w));
    RunNext(EMPTY, events + [Commit(w)], ReadCount(session));
  }

  /** The letters used in the current epoch are exactly the first `count`, and no
      unshipped label belongs to a later epoch. */
  lemma CurrentEpochIsDense(events: seq<Event>, k: nat)
    requires SteadyRun(EMPTY, events) && DeleteFree(events)
    ensures var rows := Run(EMPTY, events).rows;
            && (LetterUsed(rows, LastShip(rows), k) <==> k < EpochCount(rows, LastShip(rows)))
            && (forall i :: 0 <= i < |rows| && Unshipped(rows[i]) ==>
                  EpochOf(rows[i].value.tag).Some? && EpochOf(rows[i].value.tag).value <= LastShip(rows))
  {
    ReachedState(events);
    var rows := Run(EMPTY, events).rows;
    var last, count := LastShip(rows), EpochCount(rows, LastShip(rows));
    forall i | 0 <= i < |rows| && Unshipped(rows[i])
      ensures && EpochOf(rows[i].value.tag).Some? && EpochOf(rows[i].value.tag).value <= last
              && (Carries(rows[i], Label(last, k)) ==> k < count)
    {
      assert TagOk(rows[i], last, count);
      var e: nat, j: nat :| PlacedAt(rows[i].value.tag, e, j, last, count);
      LabelParses(e, j);
      if Carries(rows[i], Label(last, k)) {
        LabelInjective(e, j, last, k);
      }
    }
  }

  // ----- the next number -----

  lemma NextNumberFree(rows: Rows, id: nat)
    requires Labelled(rows)
    ensures !NumberTaken(rows, id, LastShip(rows) + 1)
  {
    LastShipIsMax(rows);
    var last, count := LastShip(rows), EpochCount(rows, LastShip(rows));
    forall i | 0 <= i < |rows| ensures !Numbered(rows[i], last + 1) && !Carries(rows[i], Numeral(last + 1)) {
      assert TagOk(rows[i], last, count);
      ShippedLabelHasNoEpoch(last + 1);
      if rows[i].value.ship.Some? {
        assert ShipOf(rows[i]) <= last;
        if Carries(rows[i], Numeral(last + 1)) {
          NumeralInjective(rows[i].value.ship.value, last + 1);
        }
      } else {
        var e: nat, k: nat :| PlacedAt(rows[i].value.tag, e, k, last, count);
        LabelParses(e, k);
      }
    }
  }

  lemma LabelsAfterChange(rows: Rows, rows': Rows, id: nat)
    requires Labelled(rows) && id < |rows| == |rows'| && rows' == rows[id := rows'[id]] && SameTag(rows[id], rows'[id])
    ensures Labelled(rows') && LastShip(rows') == LastShip(rows)
  {
    assert AllLive(rows);
    SameTagsKeep(rows, rows');
    SameFolds(rows, rows', 0);
  }

  lemma FreeAfterChange(rows: Rows, rows': Rows, id: nat)
    requires Labelled(rows) && id < |rows| == |rows'| && rows' == rows[id := rows'[id]] && SameTag(rows[id], rows'[id])
    ensures LastShip(rows') == LastShip(rows) && !NumberTaken(rows', id, LastShip(rows) + 1)
  {
    assert AllLive(rows);
    SameTagsKeep(rows, rows');
    SameFolds(rows, rows', 0);
    NextNumberFree(rows', id);
  }

  predicate ShippedAs(rows: Rows, id: nat, n: nat) {
    Live(rows, id) && rows[id].value.ship == Some(n) && rows[id].value.tag == Numeral(n)
  }

  lemma NumberTakes(s: State, s1: State, id: nat, w: nat)
    requires Live(s.rows, id) && At(s, w) == Dispatcher([], Assigning(id, 0)) && s1 == ReadMaxStep(s, w)
    requires !NumberTaken(s.rows, id, LastShip(s.rows) + 1)
    ensures var s2 := CommitStep(s1, w);
            && At(s2, w).phase == Ready(id) && s2.log == s.log && ShippedAs(s2.rows, id, LastShip(s.rows) + 1)
            && forall v: nat :: v != w ==> At(s2, v) == At(s, v)
  {
    assert At(s1, w).phase == Numbering(id, 0, LastShip(s.rows) + 1);
  }

  // ----- a stale unpublish, with every other issue in place -----

  lemma BackToOperator(s: State, id: nat)
    requires Inv(s) && LabelInv(s) && id < |s.rows|
    ensures var s' := Apply(s, UnpublishWrite(id, Approved));
            && CanApprove(s'.rows, id) && Labelled(s'.rows) && s'.log == s.log && s'.dispatchers == s.dispatchers
  {
    assert AllLive(s.rows);
    TagsStay(s, UnpublishWrite(id, Approved));
    SameTagsKeep(s.rows, Apply(s, UnpublishWrite(id, Approved)).rows);
  }

  lemma OnwardsInThreeSteps(s: State, id: nat, w: nat)
    ensures Run(s, Onwards(w, Assigning(id, 0))) == Apply(CommitStep(ReadMaxStep(s, w), w), Begin(w, []))
  {
    var s1 := ReadMaxStep(s, w);
    var s2 := CommitStep(s1, w);
    RunFirst(s, ReadMax(w), [Commit(w)] + [Begin(w, [])]);
    RunFirst(s1, Commit(w), [Begin(w, [])]);
    RunNext(s2, [], Begin(w, []));
    assert [] + [Begin(w, [])] == [Begin(w, [])];
  }

  lemma ClaimedIsBegun(s: State, id: nat, w: nat)
    requires Live(s.rows, id) && At(s, w) == Dispatcher([], Assigning(id, 0)) && !NumberTaken(s.rows, id, LastShip(s.rows) + 1)
    ensures Restarted(s, Run(s, Onwards(w, Assigning(id, 0))), id, w)
  {
    var s1 := ReadMaxStep(s, w);
    NumberTakes(s, s1, id, w);
    NobodyToMail(CommitStep(s1, w), id, w);
    OnwardsInThreeSteps(s, id, w);
  }

  /** A send loop has started, and nobody but its dispatcher moved. */
  ghost predicate Restarted(s: State, s': State, id: nat, w: nat) {
    s'.log == s.log + [Began(id)] && forall v: nat :: v != w ==> At(s', v) == At(s, v)
  }

  lemma StartsAgain(s: State, id: nat, w: nat)
    requires Labelled(s.rows) && CanApprove(s.rows, id) && w !in s.dispatchers
    ensures Restarted(s, Run(s, Retake(id, w) + Onwards(w, Assigning(id, 0))), id, w)
  {
    ApprovedIsClaimed(s, id, w);
    var s1 := Run(s, Retake(id, w));
    FreeAfterChange(s.rows, s1.rows, id);
    ClaimedIsBegun(s1, id, w);
    RunConcat(s, Retake(id, w), Onwards(w, Assigning(id, 0)));
  }

  function Again(id: nat, w: nat): seq<Event> {
    [UnpublishWrite(id, Approved)] + (Retake(id, w) + Onwards(w, Assigning(id, 0)))
  }

  lemma StaleRestarts(s: State, id: nat, w: nat)
    requires Inv(s) && LabelInv(s) && id < |s.rows| && w !in s.dispatchers
    ensures Restarted(s, Run(s, Again(id, w)), id, w)
  {
    var stale := UnpublishWrite(id, Approved);
    BackToOperator(s, id);
    StartsAgain(Apply(s, stale), id, w);
    RunFirst(s, stale, Retake(id, w) + Onwards(w, Assigning(id, 0)));
  }

  lemma BegunTwice(s: State, s': State, id: nat, w: nat, v: nat)
    requires Restarted(s, s', id, w) && v != w && At(s, v).phase == Ready(id)
    ensures Occurrences(Run(s', [Begin(v, [])]).log, Began(id)) >= 2
  {
    OccursTwice(s.log, Began(id));
    NobodyToMail(s', id, v);
    RunNext(s', [], Begin(v, []));
    assert [] + [Begin(v, [])] == [Begin(v, [])];
  }

  /** Read as approved, written after the send loop began or just before it: the
      next approval starts a second send loop. Nothing is deleted. */
  lemma StaleUnpublishSendsTwice(events: seq<Event>, id: nat, w: nat, v: nat)
    requires SteadyRun(EMPTY, events) && DeleteFree(events)
    requires var s := Run(EMPTY, events);
             id < |s.rows| && w !in s.dispatchers && (Began(id) in s.log || At(s, v).phase == Ready(id))
    ensures var s := Run(EMPTY, events);
            && !Timely(s, UnpublishWrite(id, Approved))
            && Occurrences(Run(s, if Began(id) in s.log then Again(id, w) else Again(id, w) + [Begin(v, [])]).log, Began(id)) >= 2
  {
    var s := Run(EMPTY, events);
    ReachedState(events);
    StaleRestarts(s, id, w);
    NotTimely(s, id, v);
    if Began(id) in s.log {
      OccursTwice(s.log, Began(id));
    } else {
      BegunTwice(s, Run(s, Again(id, w)), id, w, v);
      RunConcat(s, Again(id, w), [Begin(v, [])]);
    }
  }

  lemma NotTimely(s: State, id: nat, v: nat)
    requires LabelInv(s) && id < |s.rows| && (Began(id) in s.log || At(s, v).phase == Ready(id))
    ensures !Timely(s, UnpublishWrite(id, Approved))
  {
    assert AllLive(s.rows);
  }
}
