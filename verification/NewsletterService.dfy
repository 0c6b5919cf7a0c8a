/** The lifecycle functions as they are written: branches, retries and loops over
    the tables, each proved to be a sequence of the protocol's atomic steps with
    everybody else's steps interleaved at every point where the code awaits. */
module NewsletterService {
  import opened Text
  import opened LabelNumbering
  import opened Newsletter
  import opened NewsletterRuns
  import opened NewsletterLabels
  import opened NewsletterShapes
  import opened StableSort

  /** The source's returned issue, LookupError and ValueError. */
  datatype Outcome = Ok(issue: Issue) | NotFound | Refused(status: Status)

  datatype Stored = Assigned | Vanished | Collided

  datatype Dispatched = Completed | AlreadyTaken | Failed

  /** An event of another session and another dispatcher. */
  predicate Foreign(me: nat, e: Event) {
    && !e.UnpublishWrite? && !e.LateRollback?
    && (e.ReadLastShip? || e.ReadCount? || e.Insert? ==> e.session != me)
    && (!Operator(e) ==> e.w != me)
  }

  lemma ForeignStands(me: nat, s: State, e: Event)
    requires Foreign(me, e)
    ensures At(Apply(s, e), me) == At(s, me)
    ensures me in Apply(s, e).drafts <==> me in s.drafts
    ensures me in s.drafts ==> Apply(s, e).drafts[me] == s.drafts[me]
  {
    if Operator(e) {
    } else {
      assert Apply(s, e).drafts == s.drafts;
    }
  }

  lemma {:induction false} ForeignRun(me: nat, s: State, events: seq<Event>)
    requires forall e :: e in events ==> Foreign(me, e)
    ensures At(Run(s, events), me) == At(s, me)
    ensures me in Run(s, events).drafts <==> me in s.drafts
    ensures me in s.drafts ==> Run(s, events).drafts[me] == s.drafts[me]
    decreases events
  {
    if events != [] {
      ForeignStands(me, s, events[0]);
      ForeignRun(me, Apply(s, events[0]), events[1..]);
    }
  }

  lemma ReachableInv(trace: seq<Event>)
    requires Atomic(trace)
    ensures Inv(Run(EMPTY, trace)) && NumInv(Run(EMPTY, trace))
  {
    AtomicIsSteady(EMPTY, trace);
    SteadyReached(trace);
  }

  lemma ReachableFree(trace: seq<Event>)
    requires Atomic(trace) && DeleteFree(trace)
    ensures !TagTaken(Run(EMPTY, trace).rows, NextLabel(Run(EMPTY, trace).rows))
  {
    AtomicIsSteady(EMPTY, trace);
    ReachedState(trace);
    NextLetterFree(Run(EMPTY, trace).rows);
  }

  /** An issue given up before its first send stays unsent and unnumbered. */
  ghost predicate Withdrawn(s: State, id: nat) {
    && Quiet(s, id) && Silent(s.log, id)
    && (Live(s.rows, id) ==> s.rows[id].value.ship.None?)
  }

  lemma GivenUp(s: State, s': State, w: nat)
    requires Inv(s) && NumInv(s) && (At(s, w).phase.Assigning? || At(s, w).phase.Numbering?)
    requires s'.log == s.log && s'.dispatchers == s.dispatchers[w := At(s', w)] && At(s', w).phase.Resting?
    requires s'.rows == s.rows || s'.rows == Revert(s.rows, At(s, w).phase.id)
    ensures Withdrawn(s', At(s, w).phase.id)
  {
    Sole(s, w);
    var id := At(s, w).phase.id;
    assert UnnumberedYet(s.rows, At(s, w).phase);
    assert !Holds(s', w, id);
    forall v: nat | v != w ensures !Holds(s', v, id) {
      assert !Holds(s, v, id);
    }
  }

  /** Between two states nothing but issue `id` changed: no other row, no other list of
      subscribers, and nothing of another issue left the system. */
  ghost predicate OnlyTouches(s: State, s': State, id: nat) {
    && |s'.rows| == |s.rows| && (forall j :: 0 <= j < |s.rows| && j != id ==> s'.rows[j] == s.rows[j])
    && (forall e: Emission :: e.id != id ==> (e in s'.log <==> e in s.log))
    && (forall j: nat :: j != id ==> (j in s'.audience <==> j in s.audience) && (j in s.audience ==> s'.audience[j] == s.audience[j]))
  }

  lemma TouchesTwice(a: State, b: State, c: State, id: nat)
    requires OnlyTouches(a, b, id) && OnlyTouches(b, c, id)
    ensures OnlyTouches(a, c, id)
  {
  }

  lemma OwnStepTouches(s: State, e: Event, id: nat)
    requires e.ReadMax? || e.Commit? || e.Begin? || e.Deliver? || e.Post? || e.Finalize?
    requires !At(s, e.w).phase.Resting? && At(s, e.w).phase.id == id
    ensures OnlyTouches(s, Apply(s, e), id)
  {
    if e.ReadMax? || e.Commit? {
      NumberingTouches(s, e, id);
    } else {
      SendingTouches(s, e, id);
    }
  }

  lemma NumberingTouches(s: State, e: Event, id: nat)
    requires (e.ReadMax? || e.Commit?) && !At(s, e.w).phase.Resting? && At(s, e.w).phase.id == id
    ensures OnlyTouches(s, Apply(s, e), id)
  {
  }

  lemma SendingTouches(s: State, e: Event, id: nat)
    requires (e.Begin? || e.Deliver? || e.Post? || e.Finalize?) && !At(s, e.w).phase.Resting? && At(s, e.w).phase.id == id
    ensures OnlyTouches(s, Apply(s, e), id)
  {
  }

  lemma ClaimTouches(s: State, w: nat, id: nat)
    requires At(s, w).due != [] && At(s, w).due[0] == id
    ensures OnlyTouches(s, Apply(s, Claim(w)), id)
  {
  }

  /** One session of the service. `others(k)` is what everybody else does at the
      k-th await, `active(k)` the subscribers a query finds after it. */
  class Session {
    const me: nat
    const others: nat -> seq<Event>
    const active: nat -> seq<nat>
    var db: State
    var turn: nat
    ghost var trace: seq<Event>

    ghost predicate Valid()
      reads this
    {
      && (forall k: nat, e :: e in others(k) ==> Foreign(me, e))
      && (forall k: nat :: NoRepeats(active(k)))
      && db == Run(EMPTY, trace) && Atomic(trace)
    }

    /** Nobody else acts. */
    ghost predicate Undisturbed() {
      forall k: nat :: others(k) == []
    }

    constructor (me: nat, others: nat -> seq<Event>, active: nat -> seq<nat>)
      requires (forall k: nat, e :: e in others(k) ==> Foreign(me, e)) && forall k: nat :: NoRepeats(active(k))
      ensures Valid() && this.me == me && this.others == others && this.active == active && db == EMPTY
    {
      this.me, this.others, this.active := me, others, active;
      db, turn, trace := EMPTY, 0, [];
    }

    method Await()
      requires Valid()
      modifies this
      ensures Valid()
      ensures db == Run(old(db), others(old(turn)))
      ensures Undisturbed() ==> db == old(db)
      ensures At(db, me) == At(old(db), me)
      ensures me in db.drafts <==> me in old(db).drafts
      ensures me in db.drafts ==> db.drafts[me] == old(db).drafts[me]
    {
      ForeignRun(me, db, others(turn));
      RunConcat(EMPTY, trace, others(turn));
      trace := trace + others(turn);
      db := Run(db, others(turn));
      turn := turn + 1;
    }

    // ----- operator actions -----

    method ApproveAndSchedule(id: nat, requested: Option<int>, now: int) returns (r: Outcome)
      requires Valid()
      modifies this
      ensures Valid() && db == Apply(old(db), Approve(id, requested, now))
      ensures r.NotFound? <==> !Live(old(db).rows, id)
      ensures r.Ok? <==> Live(old(db).rows, id) && (old(db).rows[id].value.status == Draft || old(db).rows[id].value.status == AwaitingApproval)
      ensures r.Refused? ==> db == old(db) && r.status == old(db).rows[id].value.status
      ensures r.Ok? ==>
                && db.rows == old(db).rows[id := Some(r.issue)]
                && r.issue == old(db).rows[id].value.(status := Approved, scheduled := r.issue.scheduled)
                && r.issue.scheduled.Some? && r.issue.scheduled.value > now
                && (if requested.Some? && requested.value > now then r.issue.scheduled == requested
                    else r.issue.scheduled == Some(now + 30))
    {
      ghost var e := Approve(id, requested, now);
      RunNext(EMPTY, trace, e);
      trace := trace + [e];
      if !Live(db.rows, id) {
        return NotFound;
      }
      var issue := db.rows[id].value;
      if issue.status != Draft && issue.status != AwaitingApproval {
        return Refused(issue.status);
      }
      var sendAt := now + DEFAULT_DELAY;
      if requested.Some? && requested.value > now {
        sendAt := requested.value;
      }
      issue := issue.(status := Approved, scheduled := Some(sendAt));
      db := db.(rows := db.rows[id := Some(issue)]);
      return Ok(issue);
    }

    method CancelScheduledSend(id: nat, now: int) returns (r: Outcome)
      requires Valid()
      modifies this
      ensures Valid() && db == Apply(old(db), Cancel(id, now))
      ensures r.NotFound? <==> !Live(old(db).rows, id)
      ensures r.Ok? <==> && Has(old(db).rows, id, Approved) && old(db).rows[id].value.scheduled.Some?
                         && now < old(db).rows[id].value.scheduled.value
      ensures r.Ok? ==>
                && db.rows == old(db).rows[id := Some(r.issue)]
                && r.issue == old(db).rows[id].value.(status := AwaitingApproval, scheduled := None)
      ensures r.Refused? ==> db == old(db)
      ensures r.Ok? ==> Quiet(db, id) && Silent(db.log, id) && !CanCancel(db.rows, id, now)
    {
      ghost var e := Cancel(id, now);
      RunNext(EMPTY, trace, e);
      ReachableInv(trace);
      trace := trace + [e];
      if !Live(db.rows, id) {
        return NotFound;
      }
      var issue := db.rows[id].value;
      if issue.status != Approved || issue.scheduled.None? || issue.scheduled.value <= now {
        return Refused(issue.status);
      }
      UnheldUnlessSending(db, id);
      issue := issue.(status := AwaitingApproval, scheduled := None);
      db := db.(rows := db.rows[id := Some(issue)]);
      assert forall w: nat :: Holds(db, w, id) ==> Holds(old(db), w, id);
      return Ok(issue);
    }

    method UnpublishIssue(id: nat) returns (r: Outcome)
      requires Valid()
      modifies this
      ensures Valid() && db == Apply(old(db), Unpublish(id))
      ensures r.NotFound? <==> !Live(old(db).rows, id)
      ensures r.Ok? ==> r.issue.hidden && db.rows[id] == Some(r.issue)
      ensures r.Ok? && !old(db).rows[id].value.hidden ==>
                var was := old(db).rows[id].value;
                && db.rows == old(db).rows[id := Some(r.issue)]
                && (if was.status == Approved then r.issue == was.(hidden := true, scheduled := None, status := AwaitingApproval)
                    else (was.status == Sent || was.status == Sending) && r.issue == was.(hidden := true))
      ensures r.Ok? && r.issue.status == Approved ==> db == old(db) && old(db).rows[id].value.hidden
      ensures r.Refused? ==> db == old(db)
      ensures r.Refused? <==> Live(old(db).rows, id) && !old(db).rows[id].value.hidden
                              && r == Refused(old(db).rows[id].value.status) && (r.status == Draft || r.status == AwaitingApproval || r.status == Skipped)
    {
      ghost var e := Unpublish(id);
      RunNext(EMPTY, trace, e);
      trace := trace + [e];
      if !Live(db.rows, id) {
        return NotFound;
      }
      var issue := db.rows[id].value;
      if issue.hidden {
        return Ok(issue);
      }
      match issue.status {
        case Sent | Sending =>
          issue := issue.(hidden := true);
        case Approved =>
          issue := issue.(hidden := true, scheduled := None, status := AwaitingApproval);
        case _ =>
          return Refused(issue.status);
      }
      db := db.(rows := db.rows[id := Some(issue)]);
      return Ok(issue);
    }

    /** Deletes in any status, even in the middle of a send. */
    method DeleteIssue(id: nat) returns (found: bool)
      requires Valid()
      modifies this
      ensures Valid() && db == Apply(old(db), Delete(id)) && !Live(db.rows, id)
      ensures found <==> Live(old(db).rows, id)
      ensures |db.rows| == |old(db).rows| && forall other: nat :: other < |db.rows| && other != id ==> db.rows[other] == old(db).rows[other]
    {
      RunNext(EMPTY, trace, Delete(id));
      trace := trace + [Delete(id)];
      found := Live(db.rows, id);
      if found {
        db := db.(rows := db.rows[id := None]);
      }
    }

    // ----- drafting -----

    method NextShipNumber() returns (n: nat)
      ensures n == LastShip(db.rows) + 1
    {
      var last := 0;
      for i := 0 to |db.rows|
        invariant last == LastShip(db.rows[..i])
      {
        assert db.rows[..i + 1][..i] == db.rows[..i];
        if ShipOf(db.rows[i]) > last {
          last := ShipOf(db.rows[i]);
        }
      }
      assert db.rows[..|db.rows|] == db.rows;
      n := last + 1;
    }

    method CountEpoch(epoch: nat) returns (count: nat)
      ensures count == EpochCount(db.rows, epoch)
    {
      count := 0;
      for i := 0 to |db.rows|
        invariant count == EpochCount(db.rows[..i], epoch)
      {
        assert db.rows[..i + 1][..i] == db.rows[..i];
        if db.rows[i].Some? && db.rows[i].value.ship.None? {
          var own := ComputeEpoch(db.rows[i].value.tag);
          if own == Some(epoch) {
            count := count + 1;
          }
        }
      }
      assert db.rows[..|db.rows|] == db.rows;
    }

    /** Two queries with others in between: the epoch of the first, counted by the
        second. */
    method NextDisplayLabel() returns (tag: string)
      requires Valid()
      modifies this
      ensures Valid() && At(db, me) == At(old(db), me)
      ensures me in db.drafts && db.drafts[me] == Named(tag)
      ensures tag == Label(LastShip(old(db).rows), EpochCount(db.rows, LastShip(old(db).rows)))
      ensures DeleteFree(trace) && LastShip(db.rows) == LastShip(old(db).rows) ==> !TagTaken(db.rows, tag)
    {
      var next := NextShipNumber();
      var last: nat := next - 1;
      Note(db, ReadLastShip(me));
      db := db.(drafts := db.drafts[me := Reading(last)]);
      Await();
      var count := CountEpoch(last);
      var suffix := ComputeLabelLetter(count);
      tag := Numeral(last) + suffix.text;
      if DeleteFree(trace) {
        ReachableFree(trace);
      }
      Note(db, ReadCount(me));
      db := db.(drafts := db.drafts[me := Named(tag)]);
    }

    /** The label's two queries and one guarded insert; other sessions act between. */
    method InsertDraft(kind: Status) returns (tag: string, id: Option<nat>)
      requires Valid() && NewKind(kind)
      modifies this
      ensures Valid() && At(db, me) == At(old(db), me)
      ensures id.Some? ==>
                && id.value == |db.rows| - 1 && db.rows[id.value] == Some(Fresh(tag, kind))
                && !TagTaken(db.rows[..id.value], tag)
      ensures id.None? ==> TagTaken(db.rows, tag)
    {
      Await();
      tag := NextDisplayLabel();
      Await();
      Note(db, Insert(me, kind));
      ghost var before := db;
      if exists i :: 0 <= i < |db.rows| && Carries(db.rows[i], tag) {
        db := db.(drafts := db.drafts - {me});
        return tag, None;
      }
      db := db.(drafts := db.drafts - {me}, rows := db.rows + [Some(Fresh(tag, kind))]);
      assert db.rows[..|db.rows| - 1] == before.rows;
      return tag, Some(|db.rows| - 1);
    }

    method CreateEmptyIssue() returns (id: Option<nat>)
      requires Valid()
      modifies this
      ensures Valid() && At(db, me) == At(old(db), me)
      ensures id.Some? ==>
                && id.value == |db.rows| - 1 && Has(db.rows, id.value, Draft)
                && db.rows[id.value].value.ship.None? && db.rows[id.value].value.scheduled.None?
                && !TagTaken(db.rows[..id.value], db.rows[id.value].value.tag)
    {
      id := None;
      for attempt := 0 to 3
        invariant Valid() && At(db, me) == At(old(db), me) && id.None?
      {
        var tag;
        tag, id := InsertDraft(Draft);
        if id.Some? {
          return;
        }
      }
    }

    /** One attempt only: a label collision is the caller's error. */
    method ComposePendingIssue(anyFinds: bool, force: bool) returns (id: Option<nat>, created: bool)
      requires Valid()
      modifies this
      ensures Valid() && At(db, me) == At(old(db), me)
      ensures created ==> id.Some?
      ensures id.Some? ==>
                && (created <==> anyFinds || force)
                && Has(db.rows, id.value, if created then AwaitingApproval else Skipped)
                && !TagTaken(db.rows[..id.value], db.rows[id.value].value.tag)
    {
      var tag;
      tag, id := InsertDraft(if !anyFinds && !force then Skipped else AwaitingApproval);
      created := id.Some? && (anyFinds || force);
    }

    // ----- dispatching -----

    ghost method Note(s: State, e: Event)
      requires Atomic(trace) && !e.UnpublishWrite? && !e.LateRollback? && s == Run(EMPTY, trace)
      modifies this`trace
      ensures trace == old(trace) + [e] && Atomic(trace) && Run(EMPTY, trace) == Apply(s, e)
    {
      RunNext(EMPTY, trace, e);
      trace := trace + [e];
    }

    method ClaimIssue(id: nat, rest: seq<nat>) returns (taken: bool)
      requires Valid() && At(db, me) == Dispatcher([id] + rest, Resting)
      modifies this
      ensures Valid() && db == Apply(old(db), Claim(me))
      ensures taken <==> Has(old(db).rows, id, Approved)
      ensures At(db, me) == Dispatcher(rest, if taken then Assigning(id, 0) else Resting)
      ensures taken ==> Has(db.rows, id, Sending)
    {
      Note(db, Claim(me));
      assert ([id] + rest)[1..] == rest;
      taken := Live(db.rows, id) && db.rows[id].value.status == Approved;
      if taken {
        db := db.(rows := db.rows[id := Some(db.rows[id].value.(status := Sending))],
                  dispatchers := db.dispatchers[me := Dispatcher(rest, Assigning(id, 0))]);
      } else {
        db := db.(dispatchers := db.dispatchers[me := Dispatcher(rest, Resting)]);
      }
    }

    method ReadShipNumber(id: nat, attempt: nat, rest: seq<nat>) returns (number: Option<nat>)
      requires Valid() && At(db, me) == Dispatcher(rest, Assigning(id, attempt))
      modifies this
      ensures Valid() && db == Apply(old(db), ReadMax(me)) && OnlyTouches(old(db), db, id)
      ensures if Live(old(db).rows, id) then number == Some(LastShip(db.rows) + 1) && db.rows == old(db).rows else number.None?
      ensures number.Some? ==> At(db, me) == Dispatcher(rest, Numbering(id, attempt, number.value))
      ensures number.None? ==> At(db, me) == Dispatcher(rest, Resting) && Withdrawn(db, id) && !Live(db.rows, id)
    {
      ReachableInv(trace);
      ghost var s := db;
      OwnStepTouches(s, ReadMax(me), id);
      Note(db, ReadMax(me));
      if !Live(db.rows, id) {
        db := db.(dispatchers := db.dispatchers[me := Dispatcher(rest, Resting)]);
        GivenUp(s, db, me);
        return None;
      }
      var n := NextShipNumber();
      db := db.(dispatchers := db.dispatchers[me := Dispatcher(rest, Numbering(id, attempt, n))]);
      return Some(n);
    }

    method CommitShipNumber(id: nat, attempt: nat, number: nat, rest: seq<nat>) returns (r: Stored)
      requires Valid() && At(db, me) == Dispatcher(rest, Numbering(id, attempt, number)) && attempt < ATTEMPTS
      modifies this
      ensures Valid() && db == Apply(old(db), Commit(me))
      ensures r == Assigned ==>
                && At(db, me) == Dispatcher(rest, Ready(id))
                && Live(db.rows, id) && db.rows[id].value.ship == Some(number) && db.rows[id].value.tag == Numeral(number)
      ensures r == Vanished ==> At(db, me) == Dispatcher(rest, Resting) && Withdrawn(db, id) && !Live(db.rows, id)
      ensures r == Vanished ==> !Live(old(db).rows, id)
      ensures r == Collided ==>
                && NumberTaken(old(db).rows, id, number)
                && At(db, me) == Dispatcher(rest, if attempt + 1 < ATTEMPTS then Assigning(id, attempt + 1) else Resting)
                && (attempt + 1 == ATTEMPTS ==>
                      Withdrawn(db, id) && Has(db.rows, id, AwaitingApproval) && db.rows[id].value.scheduled.None?)
    {
      ReachableInv(trace);
      ghost var s := db;
      Note(db, Commit(me));
      if !Live(db.rows, id) {
        db := db.(dispatchers := db.dispatchers[me := Dispatcher(rest, Resting)]);
        GivenUp(s, db, me);
        return Vanished;
      }
      var issue := db.rows[id].value;
      if exists i :: 0 <= i < |db.rows| && i != id && (Numbered(db.rows[i], number) || Carries(db.rows[i], Numeral(number))) {
        if attempt + 1 < ATTEMPTS {
          db := db.(dispatchers := db.dispatchers[me := Dispatcher(rest, Assigning(id, attempt + 1))]);
        } else {
          RollBack(id, rest, s);
        }
        return Collided;
      }
      db := db.(rows := db.rows[id := Some(issue.(ship := Some(number), tag := Numeral(number)))],
                dispatchers := db.dispatchers[me := Dispatcher(rest, Ready(id))]);
      return Assigned;
    }

    /** The last collision hands the issue back to the operator, unsent. */
    method RollBack(id: nat, rest: seq<nat>, ghost s: State)
      requires s == db && Live(db.rows, id) && Inv(s) && NumInv(s)
      requires At(s, me).phase.Numbering? && At(s, me).phase.id == id && At(s, me).due == rest
      modifies this`db
      ensures db == Put(s, me, Resting).(rows := Revert(s.rows, id)) && At(db, me) == Dispatcher(rest, Resting)
      ensures Withdrawn(db, id) && Has(db.rows, id, AwaitingApproval) && db.rows[id].value.scheduled.None?
    {
      var issue := db.rows[id].value;
      db := db.(rows := db.rows[id := Some(issue.(status := AwaitingApproval, scheduled := None))],
                dispatchers := db.dispatchers[me := Dispatcher(rest, Resting)]);
      GivenUp(s, db, me);
    }

    /** One attempt: read the maximum, let others act, store max + 1 or collide. */
    method TryShipNumber(id: nat, attempt: nat, rest: seq<nat>) returns (r: Stored)
      requires Valid() && At(db, me) == Dispatcher(rest, Assigning(id, attempt)) && attempt < ATTEMPTS
      modifies this
      ensures Valid()
      ensures r == Assigned ==>
                At(db, me) == Dispatcher(rest, Ready(id)) && Live(db.rows, id) && db.rows[id].value.ship.Some?
      ensures r == Vanished ==> At(db, me) == Dispatcher(rest, Resting) && Withdrawn(db, id) && !Live(db.rows, id)
      ensures r == Collided ==>
                && At(db, me) == Dispatcher(rest, if attempt + 1 < ATTEMPTS then Assigning(id, attempt + 1) else Resting)
                && (attempt + 1 == ATTEMPTS ==>
                      Withdrawn(db, id) && Has(db.rows, id, AwaitingApproval) && db.rows[id].value.scheduled.None?)
      ensures Undisturbed() ==> OnlyTouches(old(db), db, id) && (Live(old(db).rows, id) ==> r == Assigned)
    {
      Await();
      ghost var s := db;
      var number := ReadShipNumber(id, attempt, rest);
      if number.None? {
        return Vanished;
      }
      ghost var s1 := db;
      NextNumberIsFree(trace, id);
      Await();
      OwnStepTouches(db, Commit(me), id);
      r := CommitShipNumber(id, attempt, number.value, rest);
      if Undisturbed() {
        TouchesTwice(s, s1, db, id);
      }
    }

    /** `_assign_ship_number_with_retry`. */
    method AssignShipNumberWithRetry(id: nat, rest: seq<nat>) returns (ok: bool)
      requires Valid() && At(db, me) == Dispatcher(rest, Assigning(id, 0))
      modifies this
      ensures Valid()
      ensures ok ==> At(db, me) == Dispatcher(rest, Ready(id)) && Live(db.rows, id) && db.rows[id].value.ship.Some?
      ensures !ok ==> At(db, me) == Dispatcher(rest, Resting) && Withdrawn(db, id)
      ensures !ok && Live(db.rows, id) ==> Has(db.rows, id, AwaitingApproval) && db.rows[id].value.scheduled.None?
      ensures Undisturbed() && Live(old(db).rows, id) ==> ok && OnlyTouches(old(db), db, id)
    {
      for attempt := 0 to ATTEMPTS
        invariant Valid() && At(db, me) == Dispatcher(rest, if attempt < ATTEMPTS then Assigning(id, attempt) else Resting)
        invariant attempt == ATTEMPTS ==>
                    Withdrawn(db, id) && Has(db.rows, id, AwaitingApproval) && db.rows[id].value.scheduled.None?
        invariant Undisturbed() && Live(old(db).rows, id) ==> attempt == 0 && db == old(db)
      {
        var r := TryShipNumber(id, attempt, rest);
        if r != Collided {
          return r == Assigned;
        }
      }
      ok := false;
    }

    /** Mails everyone on the list, whatever becomes of the issue meanwhile. */
    method SendLoop(id: nat, rest: seq<nat>, subscribers: seq<nat>)
      requires Valid() && At(db, me) == Dispatcher(rest, Delivering(id, [], subscribers))
      modifies this
      ensures Valid() && At(db, me) == Dispatcher(rest, Delivering(id, subscribers, []))
      ensures Undisturbed() ==> OnlyTouches(old(db), db, id) && db.rows == old(db).rows
    {
      for i := 0 to |subscribers|
        invariant Valid() && At(db, me) == Dispatcher(rest, Delivering(id, subscribers[..i], subscribers[i..]))
        invariant Undisturbed() ==> OnlyTouches(old(db), db, id) && db.rows == old(db).rows
      {
        Await();
        ghost var s := db;
        SendOne(id, rest, subscribers, i);
        if Undisturbed() {
          TouchesTwice(old(db), s, db, id);
        }
      }
      assert subscribers[..|subscribers|] == subscribers && subscribers[|subscribers|..] == [];
    }

    method SendOne(id: nat, rest: seq<nat>, subscribers: seq<nat>, i: nat)
      requires Valid() && i < |subscribers| && At(db, me) == Dispatcher(rest, Delivering(id, subscribers[..i], subscribers[i..]))
      modifies this
      ensures Valid() && At(db, me) == Dispatcher(rest, Delivering(id, subscribers[..i + 1], subscribers[i + 1..]))
      ensures OnlyTouches(old(db), db, id) && db.rows == old(db).rows && db.log == old(db).log + [Email(id, subscribers[i])]
    {
      OwnStepTouches(db, Deliver(me), id);
      Note(db, Deliver(me));
      assert subscribers[..i] + [subscribers[i]] == subscribers[..i + 1] && subscribers[i..][1..] == subscribers[i + 1..];
      db := db.(log := db.log + [Email(id, subscribers[i])],
                dispatchers := db.dispatchers[me := Dispatcher(rest, Delivering(id, subscribers[..i + 1], subscribers[i + 1..]))]);
    }

    /** `_dispatch_issue`. A completed dispatch reached exactly the subscribers it
        read; a failed one that still has a row sent nothing and is unnumbered. */
    method DispatchIssue(id: nat, rest: seq<nat>) returns (r: Dispatched, subscribers: seq<nat>)
      requires Valid() && At(db, me) == Dispatcher([id] + rest, Resting)
      modifies this
      ensures Valid() && At(db, me) == Dispatcher(rest, Resting)
      ensures r == Completed ==>
                && Has(db.rows, id, Sent) && db.rows[id].value.ship.Some?
                && Reached(db, id) && db.audience[id] == subscribers
      ensures r == Failed && Live(db.rows, id) ==> Withdrawn(db, id) && Has(db.rows, id, AwaitingApproval)
      ensures Undisturbed() && Has(old(db).rows, id, Approved) ==> r == Completed && OnlyTouches(old(db), db, id)
    {
      ghost var s := db;
      ClaimTouches(s, me, id);
      var taken := ClaimIssue(id, rest);
      if !taken {
        return if Live(db.rows, id) then AlreadyTaken else Failed, [];
      }
      ghost var s1 := db;
      var numbered := AssignShipNumberWithRetry(id, rest);
      if !numbered {
        return Failed, [];
      }
      if Undisturbed() {
        TouchesTwice(s, s1, db, id);
      }
      ghost var s2 := db;
      var stored;
      stored, subscribers := SendNumbered(id, rest);
      if Undisturbed() {
        TouchesTwice(s, s2, db, id);
      }
      return if stored then Completed else Failed, subscribers;
    }

    /** From the read of the subscribers to the last write. */
    method SendNumbered(id: nat, rest: seq<nat>) returns (stored: bool, subscribers: seq<nat>)
      requires Valid() && At(db, me) == Dispatcher(rest, Ready(id))
      modifies this
      ensures Valid() && At(db, me) == Dispatcher(rest, Resting) && (stored <==> Live(db.rows, id))
      ensures stored ==>
                && Has(db.rows, id, Sent) && db.rows[id].value.ship.Some?
                && Reached(db, id) && db.audience[id] == subscribers
      ensures Undisturbed() ==> OnlyTouches(old(db), db, id) && (stored <==> Live(old(db).rows, id))
    {
      Await();
      ghost var s := db;
      subscribers := MailOut(id, rest);
      Await();
      ghost var s1 := db;
      PostToLinkedIn(id, rest, subscribers);
      ghost var s2 := db;
      Await();
      stored := FinalizeIssue(id, rest, subscribers);
      if Undisturbed() {
        TouchesTwice(s, s1, s2, id);
        TouchesTwice(s, s2, db, id);
      }
    }

    method MailOut(id: nat, rest: seq<nat>) returns (subscribers: seq<nat>)
      requires Valid() && At(db, me) == Dispatcher(rest, Ready(id))
      modifies this
      ensures Valid() && At(db, me) == Dispatcher(rest, Delivering(id, subscribers, []))
      ensures Undisturbed() ==> OnlyTouches(old(db), db, id) && db.rows == old(db).rows
    {
      subscribers := OpenSend(id, rest);
      ghost var s1 := db;
      SendLoop(id, rest, subscribers);
      if Undisturbed() {
        TouchesTwice(old(db), s1, db, id);
      }
    }

    method OpenSend(id: nat, rest: seq<nat>) returns (subscribers: seq<nat>)
      requires Valid() && At(db, me) == Dispatcher(rest, Ready(id))
      modifies this
      ensures Valid() && NoRepeats(subscribers) && db == Apply(old(db), Begin(me, subscribers))
      ensures OnlyTouches(old(db), db, id) && db.rows == old(db).rows
      ensures At(db, me) == Dispatcher(rest, Delivering(id, [], subscribers))
    {
      subscribers := active(turn);
      OwnStepTouches(db, Begin(me, subscribers), id);
      Note(db, Begin(me, subscribers));
      db := db.(log := db.log + [Began(id)], audience := db.audience[id := subscribers],
                dispatchers := db.dispatchers[me := Dispatcher(rest, Delivering(id, [], subscribers))]);
    }

    method PostToLinkedIn(id: nat, rest: seq<nat>, subscribers: seq<nat>)
      requires Valid() && At(db, me) == Dispatcher(rest, Delivering(id, subscribers, []))
      modifies this
      ensures Valid() && db == Apply(old(db), Post(me)) && At(db, me) == Dispatcher(rest, Posted(id, subscribers))
      ensures OnlyTouches(old(db), db, id) && db.rows == old(db).rows
    {
      OwnStepTouches(db, Post(me), id);
      Note(db, Post(me));
      db := db.(log := db.log + [LinkedIn(id)], dispatchers := db.dispatchers[me := Dispatcher(rest, Posted(id, subscribers))]);
    }

    method FinalizeIssue(id: nat, rest: seq<nat>, subscribers: seq<nat>) returns (stored: bool)
      requires Valid() && At(db, me) == Dispatcher(rest, Posted(id, subscribers))
      modifies this
      ensures Valid() && db == Apply(old(db), Finalize(me)) && At(db, me) == Dispatcher(rest, Resting)
      ensures (stored <==> Live(db.rows, id)) && (stored <==> Live(old(db).rows, id)) && OnlyTouches(old(db), db, id)
      ensures stored ==>
                && Has(db.rows, id, Sent) && db.rows[id].value.ship.Some?
                && Reached(db, id) && db.audience[id] == subscribers
    {
      ReachableInv(trace);
      Sole(db, me);
      OwnStepTouches(db, Finalize(me), id);
      Note(db, Finalize(me));
      stored := Live(db.rows, id);
      if stored {
        db := db.(rows := db.rows[id := Some(db.rows[id].value.(status := Sent))], log := db.log + [Web(id)],
                  dispatchers := db.dispatchers[me := Dispatcher(rest, Resting)]);
      } else {
        db := db.(dispatchers := db.dispatchers[me := Dispatcher(rest, Resting)]);
      }
    }

    /** `dispatch_scheduled_issues`: the due list is read once and may go stale
        while it is worked through; every entry is counted exactly once. */
    method DispatchScheduledIssues(now: int) returns (dispatched: nat, failed: nat)
      requires Valid() && At(db, me) == Dispatcher([], Resting)
      modifies this
      ensures Valid() && At(db, me) == Dispatcher([], Resting)
      ensures dispatched + failed == |DueIds(old(db).rows, now)|
      ensures Undisturbed() ==> failed == 0 && Served(old(db), db, now)
    {
      ghost var before := db;
      DueIdsIff(db.rows, now);
      var due := TakeDue(now);
      dispatched, failed := 0, 0;
      for i := 0 to |due|
        invariant Valid() && At(db, me) == Dispatcher(due[i..], Resting)
        invariant dispatched + failed == i
        invariant Undisturbed() ==> failed == 0 && ServedUpTo(before, db, due, i)
      {
        var ok := DispatchNext(due, i, before, now);
        if ok {
          dispatched := dispatched + 1;
        } else {
          failed := failed + 1;
        }
      }
      if Undisturbed() {
        AllServed(before, db, due, now);
      }
    }

    /** One turn of the loop; a lost race is no failure. */
    method DispatchNext(due: seq<nat>, i: nat, ghost before: State, ghost now: int) returns (ok: bool)
      requires Valid() && i < |due| && At(db, me) == Dispatcher(due[i..], Resting) && due == DueIds(before.rows, now)
      modifies this
      ensures Valid() && At(db, me) == Dispatcher(due[i + 1..], Resting)
      ensures Undisturbed() && ServedUpTo(before, old(db), due, i) ==> ok && ServedUpTo(before, db, due, i + 1)
    {
      Await();
      assert due[i..] == [due[i]] + due[i + 1..];
      ghost var s := db;
      var r, read := DispatchIssue(due[i], due[i + 1..]);
      ok := r != Failed;
      if Undisturbed() && ServedUpTo(before, s, due, i) {
        StillApproved(before, s, due, i, now);
        ServedNext(before, s, db, due, i, now);
      }
    }

    method TakeDue(now: int) returns (due: seq<nat>)
      requires Valid() && At(db, me) == Dispatcher([], Resting)
      modifies this
      ensures Valid() && due == DueIds(old(db).rows, now) && At(db, me) == Dispatcher(due, Resting)
      ensures db == old(db).(dispatchers := db.dispatchers)
    {
      due := ReadDue(now);
      Note(db, Poll(me, now, due));
      DueIsDue(db.rows, now);
      db := db.(dispatchers := db.dispatchers[me := Dispatcher(due, Resting)]);
    }

    method ReadDue(now: int) returns (due: seq<nat>)
      ensures due == DueIds(db.rows, now)
    {
      due := [];
      for i := 0 to |db.rows|
        invariant due == DueIds(db.rows[..i], now)
      {
        assert db.rows[..i + 1][..i] == db.rows[..i];
        if db.rows[i].Some? && db.rows[i].value.status == Approved
           && db.rows[i].value.scheduled.Some? && db.rows[i].value.scheduled.value <= now {
          due := due + [i];
        }
      }
      assert db.rows[..|db.rows|] == db.rows;
    }
  }

  /** What a dispatch at `now` is for, said of the rows: approved, scheduled, and the
      time has come. */
  predicate TimeHasCome(rows: Rows, id: nat, now: int) {
    && id < |rows| && rows[id].Some? && rows[id].value.status == Approved
    && rows[id].value.scheduled.Some? && rows[id].value.scheduled.value <= now
  }

  /** Sent, numbered, and out on every channel to exactly the subscribers read for it. */
  ghost predicate WentOut(s: State, id: nat) {
    Has(s.rows, id, Sent) && s.rows[id].value.ship.Some? && Reached(s, id)
  }

  /** Nothing of the issue has changed or left the system since. */
  ghost predicate LeftAlone(s: State, s': State, id: nat) {
    && id < |s.rows| && id < |s'.rows| && s'.rows[id] == s.rows[id]
    && forall e: Emission :: e.id == id ==> (e in s'.log <==> e in s.log)
  }

  /** Every issue whose time has come went out, and every other one was left alone. */
  ghost predicate Served(s: State, s': State, now: int) {
    && |s'.rows| == |s.rows|
    && forall id: nat :: id < |s.rows| ==> if TimeHasCome(s.rows, id, now) then WentOut(s', id) else LeftAlone(s, s', id)
  }

  /** The first `i` entries of the due list are served, nothing else. */
  ghost predicate ServedUpTo(s: State, s': State, due: seq<nat>, i: nat) {
    && i <= |due| && |s'.rows| == |s.rows|
    && (forall k :: 0 <= k < i ==> WentOut(s', due[k]))
    && forall id: nat :: id < |s.rows| && id !in due[..i] ==> LeftAlone(s, s', id)
  }

  lemma StillApproved(before: State, s: State, due: seq<nat>, i: nat, now: int)
    requires i < |due| && ServedUpTo(before, s, due, i) && due == DueIds(before.rows, now)
    ensures Has(s.rows, due[i], Approved)
  {
    DueIdsIff(before.rows, now);
    assert due[i] in due;
    assert LeftAlone(before, s, due[i]);
  }

  lemma AllServed(before: State, s: State, due: seq<nat>, now: int)
    requires ServedUpTo(before, s, due, |due|) && due == DueIds(before.rows, now)
    ensures Served(before, s, now)
  {
    DueIdsIff(before.rows, now);
    assert due[..|due|] == due;
    forall id: nat | id < |before.rows|
      ensures if TimeHasCome(before.rows, id, now) then WentOut(s, id) else LeftAlone(before, s, id)
    {
      if TimeHasCome(before.rows, id, now) {
        var k :| 0 <= k < |due| && due[k] == id;
      }
    }
  }

  lemma ServedNext(before: State, s: State, s': State, due: seq<nat>, i: nat, now: int)
    requires i < |due| && ServedUpTo(before, s, due, i) && OnlyTouches(s, s', due[i]) && WentOut(s', due[i])
    requires due == DueIds(before.rows, now)
    ensures ServedUpTo(before, s', due, i + 1)
  {
    DueIdsIff(before.rows, now);
    forall k | 0 <= k < i + 1 ensures WentOut(s', due[k]) {
      assert k < i ==> due[k] != due[i] && WentOut(s, due[k]);
    }
    forall id: nat | id < |before.rows| && id !in due[..i + 1] ensures LeftAlone(before, s', id) {
      assert due[..i + 1] == due[..i] + [due[i]];
      assert LeftAlone(before, s, id);
    }
  }

  /** The due list is exactly the issues whose time has come, each once. */
  lemma {:induction false} DueIdsIff(rows: Rows, now: int)
    ensures forall id: nat :: id in DueIds(rows, now) <==> TimeHasCome(rows, id, now)
    ensures forall j, k :: 0 <= j < k < |DueIds(rows, now)| ==> DueIds(rows, now)[j] < DueIds(rows, now)[k]
  {
    if rows != [] {
      var n := |rows| - 1;
      DueIdsIff(rows[..n], now);
      assert forall id: nat :: id < n ==> (TimeHasCome(rows, id, now) <==> TimeHasCome(rows[..n], id, now));
      assert forall id: nat :: id in DueIds(rows[..n], now) ==> id < n;
      assert forall k :: 0 <= k < |DueIds(rows[..n], now)| ==> DueIds(rows[..n], now)[k] in DueIds(rows[..n], now);
    }
  }

  /** Approved issues whose time has come, by row. */
  function DueIds(rows: Rows, now: int): seq<nat> {
    if rows == [] then []
    else
      var n := |rows| - 1;
      DueIds(rows[..n], now) + if IsDue(rows, n, now) then [n] else []
  }

  lemma {:induction false} DueIsDue(rows: Rows, now: int)
    ensures forall id: nat :: id in DueIds(rows, now) <==> IsDue(rows, id, now)
  {
    if rows != [] {
      DueIsDue(rows[..|rows| - 1], now);
      forall id: nat ensures id in DueIds(rows, now) <==> IsDue(rows, id, now) {
        assert id < |rows| - 1 ==> (IsDue(rows[..|rows| - 1], id, now) <==> IsDue(rows, id, now));
      }
    }
  }
}
