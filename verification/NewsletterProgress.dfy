/** What an undisturbed dispatch achieves: the safety theorems are not met by
    sending nothing. */
module NewsletterProgress {
  import opened Text
  import opened Newsletter
  import opened NewsletterRuns
  import opened NewsletterLabels
  import opened NewsletterRaces
  import opened NewsletterShapes

  function Repeat(e: Event, n: nat): seq<Event> {
    if n == 0 then [] else [e] + Repeat(e, n - 1)
  }

  function Emails(id: nat, subscribers: seq<nat>): seq<Emission> {
    if subscribers == [] then [] else [Email(id, subscribers[0])] + Emails(id, subscribers[1..])
  }

  /** A dispatcher that works through one issue with nobody in between. */
  function Opening(w: nat): seq<Event> {
    [Claim(w), ReadMax(w), Commit(w)]
  }

  function Mailing(w: nat, subscribers: seq<nat>): seq<Event> {
    [Begin(w, subscribers)] + Repeat(Deliver(w), |subscribers|) + [Post(w), Finalize(w)]
  }

  function Undisturbed(w: nat, subscribers: seq<nat>): seq<Event> {
    Opening(w) + Mailing(w, subscribers)
  }

  lemma OpeningNumbers(s: State, s1: State, id: nat, w: nat)
    requires Has(s.rows, id, Approved) && At(s, w) == Dispatcher([id], Resting) && s1 == ClaimStep(s, w)
    requires !NumberTaken(s1.rows, id, LastShip(s1.rows) + 1)
    ensures var s' := Run(s, Opening(w));
            && At(s', w).phase == Ready(id) && s'.log == s.log && ShippedAs(s'.rows, id, LastShip(s1.rows) + 1)
  {
    ClaimTakes(s, id, w);
    NumberTakes(s1, ReadMaxStep(s1, w), id, w);
    ThreeSteps(s, Claim(w), ReadMax(w), Commit(w));
  }

  lemma ClaimTakes(s: State, id: nat, w: nat)
    requires Has(s.rows, id, Approved) && At(s, w) == Dispatcher([id], Resting)
    ensures var s1 := ClaimStep(s, w);
            && At(s1, w) == Dispatcher([], Assigning(id, 0)) && s1.log == s.log
            && Live(s1.rows, id) && s1.rows == s.rows[id := s1.rows[id]] && SameTag(s.rows[id], s1.rows[id])
  {
    assert [id][1..] == [];
  }

  lemma {:induction false} AllDelivered(s: State, id: nat, w: nat, done: seq<nat>, todo: seq<nat>)
    requires At(s, w).phase == Delivering(id, done, todo)
    ensures var s' := Run(s, Repeat(Deliver(w), |todo|));
            && At(s', w).phase == Delivering(id, done + todo, [])
            && s'.log == s.log + Emails(id, todo) && s'.rows == s.rows && s'.audience == s.audience
    decreases |todo|
  {
    if todo == [] {
      assert done + todo == done;
    } else {
      var s1 := DeliverStep(s, w);
      AllDelivered(s1, id, w, done + [todo[0]], todo[1..]);
      assert done + [todo[0]] + todo[1..] == done + todo;
      assert Repeat(Deliver(w), |todo|)[1..] == Repeat(Deliver(w), |todo| - 1);
    }
  }

  lemma PostThenFinalize(s: State, w: nat)
    ensures Run(s, [Post(w), Finalize(w)]) == FinalizeStep(PostStep(s, w), w)
  {
    RunNext(s, [Post(w)], Finalize(w));
    RunNext(s, [], Post(w));
    assert [] + [Post(w)] == [Post(w)] && [Post(w)] + [Finalize(w)] == [Post(w), Finalize(w)];
  }

  lemma Closing(s: State, id: nat, w: nat, done: seq<nat>)
    requires At(s, w).phase == Delivering(id, done, []) && Live(s.rows, id)
    ensures var s' := Run(s, [Post(w), Finalize(w)]);
            && At(s', w).phase == Resting && s'.log == s.log + [LinkedIn(id), Web(id)]
            && Has(s'.rows, id, Sent) && SameTag(s.rows[id], s'.rows[id])
  {
    var s1 := PostStep(s, w);
    PostThenFinalize(s, w);
    assert At(s1, w).phase == Posted(id, done);
    assert s.log + [LinkedIn(id)] + [Web(id)] == s.log + [LinkedIn(id), Web(id)];
  }

  /** Left alone, the dispatch of an approved issue takes the next number, mails
      every subscriber once and in order, posts, publishes, and ends as sent. */
  lemma UndisturbedDispatchSends(s: State, id: nat, w: nat, subscribers: seq<nat>)
    requires Shaped(s) && Has(s.rows, id, Approved) && At(s, w) == Dispatcher([id], Resting) && NoRepeats(subscribers)
    ensures var s' := Run(s, Undisturbed(w, subscribers));
            && s'.log == s.log + [Began(id)] + Emails(id, subscribers) + [LinkedIn(id), Web(id)]
            && Has(s'.rows, id, Sent) && ShippedAs(s'.rows, id, LastShip(s.rows) + 1)
  {
    var s1 := Run(s, Opening(w));
    ClaimTakes(s, id, w);
    ShapesStep(s, Claim(w));
    ShapedIsFree(ClaimStep(s, w), id);
    SameShips(s.rows, ClaimStep(s, w).rows);
    OpeningNumbers(s, ClaimStep(s, w), id, w);
    ReadySends(s1, id, w, subscribers);
    RunConcat(s, Opening(w), Mailing(w, subscribers));
  }

  lemma ReadySends(s: State, id: nat, w: nat, subscribers: seq<nat>)
    requires At(s, w).phase == Ready(id) && Live(s.rows, id) && NoRepeats(subscribers)
    ensures var s' := Run(s, Mailing(w, subscribers));
            && s'.log == s.log + [Began(id)] + Emails(id, subscribers) + [LinkedIn(id), Web(id)]
            && Has(s'.rows, id, Sent) && SameTag(s.rows[id], s'.rows[id])
  {
    var s1 := BeginStep(s, w, subscribers);
    assert At(s1, w).phase == Delivering(id, [], subscribers);
    BegunSends(s1, id, w, subscribers);
    assert Mailing(w, subscribers)[1..] == Repeat(Deliver(w), |subscribers|) + [Post(w), Finalize(w)];
  }

  lemma BegunSends(s: State, id: nat, w: nat, subscribers: seq<nat>)
    requires At(s, w).phase == Delivering(id, [], subscribers) && Live(s.rows, id)
    ensures var s' := Run(s, Repeat(Deliver(w), |subscribers|) + [Post(w), Finalize(w)]);
            && s'.log == s.log + Emails(id, subscribers) + [LinkedIn(id), Web(id)]
            && Has(s'.rows, id, Sent) && SameTag(s.rows[id], s'.rows[id])
  {
    AllDelivered(s, id, w, [], subscribers);
    assert [] + subscribers == subscribers;
    Closing(Run(s, Repeat(Deliver(w), |subscribers|)), id, w, subscribers);
    RunConcat(s, Repeat(Deliver(w), |subscribers|), [Post(w), Finalize(w)]);
  }

  /** In every state that any run reaches, a dispatcher that takes an approved issue and
      is left alone sends it. */
  lemma ReachableDispatchSends(events: seq<Event>, id: nat, w: nat, subscribers: seq<nat>)
    requires NoRepeats(subscribers)
    requires var s := Run(EMPTY, events); Has(s.rows, id, Approved) && At(s, w) == Dispatcher([id], Resting)
    ensures var s, s' := Run(EMPTY, events), Run(EMPTY, events + Undisturbed(w, subscribers));
            && s'.log == s.log + [Began(id)] + Emails(id, subscribers) + [LinkedIn(id), Web(id)]
            && Has(s'.rows, id, Sent) && ShippedAs(s'.rows, id, LastShip(s.rows) + 1)
  {
    NextNumberIsFree(events, id);
    UndisturbedDispatchSends(Run(EMPTY, events), id, w, subscribers);
    RunConcat(EMPTY, events, Undisturbed(w, subscribers));
  }
}
