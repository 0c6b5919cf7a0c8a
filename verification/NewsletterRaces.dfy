/** What happens when a write that hands an issue back to the operator was decided
    by an earlier read: an unpublish that saw the issue approved, or the late
    rollback of a failed numbering. Exactly when can the issue then go out twice? */
module NewsletterRaces {
  import opened Text
  import opened Newsletter
  import opened NewsletterRuns
  import opened StableSort

  ghost predicate SentTwice(log: seq<Emission>) {
    exists e :: Occurrences(log, e) >= 2
  }

  lemma DistinctIsNotTwice(log: seq<Emission>)
    requires Distinct(log)
    ensures !SentTwice(log)
  {
    OnceIffDistinct(log);
  }

  /** The state after `id` has been handed back with whatever else its row says. */
  function Return(s: State, id: nat, back: Issue): State
    requires id < |s.rows|
  {
    s.(rows := Set(s.rows, id, back))
  }

  lemma ReturnKeeps(s: State, id: nat, back: Issue)
    requires Inv(s) && Live(s.rows, id) && HandedBack(s.rows[id], Some(back))
    requires !Held(s, id) && Silent(s.log, id)
    ensures Inv(Return(s, id, back))
  {
    var rows' := Set(s.rows, id, back);
    forall i: nat | i < |s.rows| ensures RowMoves(s, rows', i) {
    }
    OperatorKeeps(s, rows', s.drafts);
  }

  /** Nobody is interrupted: every other row is gone, the issue alone is left. */
  ghost predicate Alone(rows: Rows, id: nat) {
    forall i: nat :: i < |rows| && i != id ==> rows[i].None?
  }

  function DeleteOthers(n: nat, id: nat): seq<Event> {
    if n == 0 then [] else DeleteOthers(n - 1, id) + (if n - 1 == id then [] else [Delete(n - 1)])
  }

  lemma OneDeleted(s: State, i: nat)
    requires i < |s.rows|
    ensures Apply(s, Delete(i)) == s.(rows := s.rows[i := None])
  {
  }

  lemma {:induction false} OthersDeleted(s: State, n: nat, id: nat)
    requires n <= |s.rows| && Live(s.rows, id)
    ensures var s' := Run(s, DeleteOthers(n, id));
            && s' == s.(rows := s'.rows) && |s'.rows| == |s.rows|
            && (forall i: nat :: i < n && i != id ==> s'.rows[i].None?)
            && (forall i: nat :: n <= i < |s.rows| || i == id ==> i < |s.rows| && s'.rows[i] == s.rows[i])
    ensures Atomic(DeleteOthers(n, id))
  {
    if n > 0 {
      OthersDeleted(s, n - 1, id);
      if n - 1 != id {
        RunNext(s, DeleteOthers(n - 1, id), Delete(n - 1));
        OneDeleted(Run(s, DeleteOthers(n - 1, id)), n - 1);
      } else {
        assert DeleteOthers(n - 1, id) + [] == DeleteOthers(n - 1, id);
      }
    }
  }

  // ----- a second send loop -----

  lemma ThreeSteps(s: State, a: Event, b: Event, c: Event)
    ensures Run(s, [a, b, c]) == Apply(Apply(Apply(s, a), b), c)
  {
    assert [a, b, c][1..] == [b, c] && [b, c][1..] == [c];
    assert Run(Apply(Apply(s, a), b), [c]) == Run(Apply(Apply(Apply(s, a), b), c), []);
  }

  /** An operator approves the issue again and a new dispatcher takes it. */
  function Retake(id: nat, w: nat): seq<Event> {
    [Approve(id, None, 0), Enlist(w, id), Claim(w)]
  }

  lemma ApprovedIsClaimed(s: State, id: nat, w: nat)
    requires w !in s.dispatchers && CanApprove(s.rows, id)
    ensures var s' := Run(s, Retake(id, w));
            && s'.dispatchers == s.dispatchers[w := Dispatcher([], Assigning(id, 0))]
            && s'.log == s.log && Live(s'.rows, id) && s'.rows == s.rows[id := s'.rows[id]]
            && s'.rows[id].value.ship == s.rows[id].value.ship && s'.rows[id].value.tag == s.rows[id].value.tag
  {
    var s1 := Apply(s, Approve(id, None, 0));
    var s2 := Apply(s1, Enlist(w, id));
    assert At(s1, w).due + [id] == [id];
    assert At(s2, w) == Dispatcher([id], Resting) && [id][1..] == [];
    var s3 := Apply(s2, Claim(w));
    assert s3.dispatchers == s.dispatchers[w := Dispatcher([], Assigning(id, 0))];
    ThreeSteps(s, Approve(id, None, 0), Enlist(w, id), Claim(w));
  }

  predicate BeforeSend(p: Phase) {
    p.Assigning? || p.Numbering? || p.Ready?
  }

  /** What a dispatcher still has to do before its send loop starts, and the start. */
  function Onwards(w: nat, p: Phase): seq<Event> {
    match p
    case Assigning(_, _) => [ReadMax(w)] + ([Commit(w)] + [Begin(w, [])])
    case Numbering(_, _, _) => [Commit(w)] + [Begin(w, [])]
    case _ => [Begin(w, [])]
  }

  /** The issue alone is left, and the dispatcher is on its way to send it. */
  ghost predicate Poised(s: State, id: nat, w: nat) {
    Live(s.rows, id) && Alone(s.rows, id) && BeforeSend(At(s, w).phase) && At(s, w).phase.id == id
  }

  /** One step of the way, nobody else moved. */
  ghost predicate Moved(s: State, s': State, id: nat, w: nat) {
    && Live(s'.rows, id) && Alone(s'.rows, id)
    && forall v: nat :: v != w ==> At(s', v) == At(s, v)
  }

  lemma ReadMaxMoves(s: State, id: nat, w: nat)
    requires Poised(s, id, w) && At(s, w).phase.Assigning?
    ensures var s' := ReadMaxStep(s, w);
            Poised(s', id, w) && At(s', w).phase.Numbering? && Moved(s, s', id, w) && s'.log == s.log
  {
  }

  lemma CommitMoves(s: State, id: nat, w: nat)
    requires Poised(s, id, w) && At(s, w).phase.Numbering?
    ensures var s' := CommitStep(s, w);
            Poised(s', id, w) && At(s', w).phase.Ready? && Moved(s, s', id, w) && s'.log == s.log
  {
    assert !NumberTaken(s.rows, id, At(s, w).phase.number);
  }

  lemma NobodyToMail(s: State, id: nat, w: nat)
    requires At(s, w).phase == Ready(id)
    ensures BeginStep(s, w, []).log == s.log + [Began(id)]
    ensures forall v: nat :: v != w ==> At(BeginStep(s, w, []), v) == At(s, v)
  {
  }

  lemma BeginMoves(s: State, id: nat, w: nat)
    requires Poised(s, id, w) && At(s, w).phase.Ready?
    ensures var s' := BeginStep(s, w, []); Moved(s, s', id, w) && s'.log == s.log + [Began(id)]
  {
  }

  lemma RunFirst(s: State, e: Event, rest: seq<Event>)
    ensures Run(s, [e] + rest) == Run(Apply(s, e), rest)
  {
    assert ([e] + rest)[1..] == rest;
  }

  lemma GoesOnReady(s: State, id: nat, w: nat)
    requires Poised(s, id, w) && At(s, w).phase.Ready?
    ensures var s' := Run(s, [Begin(w, [])]);
            Moved(s, s', id, w) && s'.log == s.log + [Began(id)]
  {
    BeginMoves(s, id, w);
    RunFirst(s, Begin(w, []), []);
    assert [Begin(w, [])] + [] == [Begin(w, [])];
  }

  lemma GoesOnNumbering(s: State, id: nat, w: nat)
    requires Poised(s, id, w) && At(s, w).phase.Numbering?
    ensures var s' := Run(s, [Commit(w)] + [Begin(w, [])]);
            Moved(s, s', id, w) && s'.log == s.log + [Began(id)]
  {
    CommitMoves(s, id, w);
    GoesOnReady(CommitStep(s, w), id, w);
    RunFirst(s, Commit(w), [Begin(w, [])]);
  }

  lemma GoesOn(s: State, id: nat, w: nat)
    requires Poised(s, id, w)
    ensures var s' := Run(s, Onwards(w, At(s, w).phase));
            Moved(s, s', id, w) && s'.log == s.log + [Began(id)]
  {
    if At(s, w).phase.Assigning? {
      ReadMaxMoves(s, id, w);
      GoesOnNumbering(ReadMaxStep(s, w), id, w);
      RunFirst(s, ReadMax(w), [Commit(w)] + [Begin(w, [])]);
    } else if At(s, w).phase.Numbering? {
      GoesOnNumbering(s, id, w);
    } else {
      GoesOnReady(s, id, w);
    }
  }

  lemma {:induction false} FreshName(names: set<nat>) returns (w: nat)
    ensures forall v :: v in names ==> v < w
    decreases names
  {
    if names == {} {
      return 0;
    }
    var v :| v in names;
    var u := FreshName(names - {v});
    w := if u > v then u else v + 1;
    assert forall x :: x in names ==> x == v || x in names - {v};
  }

  /** The run that starts the second loop: the operator clears the table of other
      issues, approves again, a new dispatcher sends, and whoever still held the
      issue sends as well. */
  function SecondLoop(s: State, id: nat, w: nat): seq<Event> {
    DeleteOthers(|s.rows|, id) + Retake(id, w) + Onwards(w, Assigning(id, 0))
  }

  lemma SecondLoopBegins(s: State, id: nat, w: nat)
    requires CanApprove(s.rows, id) && w !in s.dispatchers
    ensures var s' := Run(s, SecondLoop(s, id, w));
            && s'.log == s.log + [Began(id)] && Live(s'.rows, id) && Alone(s'.rows, id)
            && forall v: nat :: v != w ==> At(s', v) == At(s, v)
  {
    var s1 := Run(s, DeleteOthers(|s.rows|, id));
    OthersDeleted(s, |s.rows|, id);
    var s2 := Run(s1, Retake(id, w));
    ApprovedIsClaimed(s1, id, w);
    assert At(s2, w).phase == Assigning(id, 0) && Poised(s2, id, w);
    GoesOn(s2, id, w);
    RunConcat(s, DeleteOthers(|s.rows|, id), Retake(id, w));
    RunConcat(s, DeleteOthers(|s.rows|, id) + Retake(id, w), Onwards(w, Assigning(id, 0)));
  }

  lemma SecondLoopIsAtomic(s: State, id: nat, w: nat)
    requires Live(s.rows, id)
    ensures Atomic(SecondLoop(s, id, w))
  {
    OthersDeleted(s, |s.rows|, id);
  }

  lemma {:induction false} OccursTwice(log: seq<Emission>, e: Emission)
    ensures Occurrences(log + [e] + [e], e) >= 2
    ensures e in log ==> Occurrences(log + [e], e) >= 2
  {
    assert e in log ==> e in multiset(log);
  }

  lemma AtomicConcat(a: seq<Event>, b: seq<Event>)
    requires Atomic(a) && Atomic(b)
    ensures Atomic(a + b)
  {
  }

  /** An issue handed back while it is held, or after anything of it left, can be
      sent twice: this is the run. */
  lemma ReturnedTooLate(s: State, id: nat, back: Issue) returns (after: seq<Event>)
    requires Inv(s) && Live(s.rows, id) && HandedBack(s.rows[id], Some(back))
    requires Held(s, id) || !Silent(s.log, id)
    ensures Atomic(after) && Occurrences(Run(Return(s, id, back), after).log, Began(id)) >= 2
  {
    var s0 := Return(s, id, back);
    var w := FreshName(s.dispatchers.Keys);
    SecondLoopBegins(s0, id, w);
    SecondLoopIsAtomic(s0, id, w);
    OccursTwice(s.log, Began(id));
    after := SecondLoop(s0, id, w);
    var s1 := Run(s0, after);
    if Silent(s.log, id) {
      var v :| v in s.dispatchers && Holding(s.dispatchers[v].phase) == Some(id);
      assert Progress(s, s.dispatchers[v].phase);
      assert At(s1, v) == s.dispatchers[v] && Poised(s1, id, v);
      GoesOn(s1, id, v);
      RunConcat(s0, after, Onwards(v, At(s1, v).phase));
      AtomicConcat(after, Onwards(v, At(s1, v).phase));
      after := after + Onwards(v, At(s1, v).phase);
    }
  }

  // ----- exactly when -----

  /** Whatever the row says otherwise: a returned issue can go out twice exactly
      when it was handed back while somebody held it or after it began to leave. */
  lemma ReturnSentTwiceIff(s: State, id: nat, back: Issue)
    requires Inv(s) && Live(s.rows, id) && HandedBack(s.rows[id], Some(back))
    ensures (exists after :: TimelyRun(Return(s, id, back), after) && SentTwice(Run(Return(s, id, back), after).log))
       <==> Held(s, id) || !Silent(s.log, id)
  {
    var s0 := Return(s, id, back);
    if Held(s, id) || !Silent(s.log, id) {
      var after := ReturnedTooLate(s, id, back);
      AtomicIsTimely(s0, after);
      assert SentTwice(Run(s0, after).log);
    } else {
      ReturnKeeps(s, id, back);
      forall after | TimelyRun(s0, after) ensures !SentTwice(Run(s0, after).log) {
        RunKeeps(s0, after);
        DistinctIsNotTwice(Run(s0, after).log);
      }
    }
  }

  /** An unpublish that saw the issue approved, or the late rollback of a failed
      numbering, whenever it is written: some run of otherwise timely steps sends
      something twice afterwards exactly when the write did not come in time. */
  lemma TimelyIsExact(before: seq<Event>, e: Event)
    requires TimelyRun(EMPTY, before) && Returns(Run(EMPTY, before), e)
    ensures var s := Run(EMPTY, before);
            (exists after :: TimelyRun(Apply(s, e), after) && SentTwice(Run(Apply(s, e), after).log))
            <==> Held(s, e.id) || !Silent(s.log, e.id)
  {
    var s := Run(EMPTY, before);
    EmptyInv();
    RunKeeps(EMPTY, before);
    var back := Apply(s, e).rows[e.id].value;
    assert Apply(s, e) == Return(s, e.id, back);
    ReturnSentTwiceIff(s, e.id, back);
  }
}
