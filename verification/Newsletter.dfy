/** The newsletter issue lifecycle as a concurrent protocol. Every event is one
    atomic database step or one external send; operators, drafting sessions and
    any number of dispatchers interleave freely. A row's position is the issue's
    identity, so an identity is never reused and a deleted issue leaves a hole. */
module Newsletter {
  import opened Text
  import opened LabelNumbering

  datatype Status = Draft | AwaitingApproval | Approved | Sending | Sent | Skipped

  /** `tag` is the display label; `scheduled` the scheduled send time. */
  datatype Issue = Issue(tag: string, status: Status, scheduled: Option<int>, ship: Option<nat>, hidden: bool)

  type Rows = seq<Option<Issue>>

  /** What leaves the system, in order. `Began` marks the start of a send loop. */
  datatype Emission = Began(id: nat) | Email(id: nat, subscriber: nat) | LinkedIn(id: nat) | Web(id: nat)

  /** Where a dispatcher stands with the issue it claimed. */
  datatype Phase =
    | Resting
    | Assigning(id: nat, attempt: nat)
    | Numbering(id: nat, attempt: nat, number: nat)
    | Ready(id: nat)
    | Delivering(id: nat, done: seq<nat>, todo: seq<nat>)
    | Posted(id: nat, done: seq<nat>)

  datatype Dispatcher = Dispatcher(due: seq<nat>, phase: Phase)

  /** A drafting session between its two queries, and with its label made. */
  datatype Drafting = Reading(last: nat) | Named(tag: string)

  /** `drafts` holds what each drafting session has read but not yet stored;
      `audience` the subscribers each send loop started with. */
  datatype State = State(
    rows: Rows, drafts: map<nat, Drafting>, dispatchers: map<nat, Dispatcher>,
    audience: map<nat, seq<nat>>, log: seq<Emission>)

  datatype Event =
    | ReadLastShip(session: nat)
    | ReadCount(session: nat)
    | Insert(session: nat, kind: Status)
    | Approve(id: nat, requested: Option<int>, now: int)
    | Cancel(id: nat, now: int)
    | Unpublish(id: nat)
    | UnpublishWrite(id: nat, seen: Status)
    | LateRollback(id: nat)
    | Delete(id: nat)
    | Reschedule(id: nat, at: int)
    | Poll(w: nat, now: int, found: seq<nat>)
    | Enlist(w: nat, id: nat)
    | Claim(w: nat)
    | ReadMax(w: nat)
    | Commit(w: nat)
    | Halt(w: nat)
    | Begin(w: nat, subscribers: seq<nat>)
    | Deliver(w: nat)
    | Post(w: nat)
    | Finalize(w: nat)
    | Abandon(w: nat)
    | Crash(w: nat)

  /** Minutes between an approval and its send when no future time is asked for. */
  const DEFAULT_DELAY := 30
  const ATTEMPTS: nat := 3

  const EMPTY := State([], map[], map[], map[], [])

  // ----- reading the table -----

  predicate Live(rows: Rows, id: nat) {
    id < |rows| && rows[id].Some?
  }

  predicate Has(rows: Rows, id: nat, status: Status) {
    Live(rows, id) && rows[id].value.status == status
  }

  function ShipOf(row: Option<Issue>): nat {
    if row.Some? && row.value.ship.Some? then row.value.ship.value else 0
  }

  function LastShip(rows: Rows): nat {
    if rows == [] then 0
    else
      var n := |rows| - 1;
      var before, own := LastShip(rows[..n]), ShipOf(rows[n]);
      if own > before then own else before
  }

  predicate InEpoch(row: Option<Issue>, epoch: nat) {
    row.Some? && row.value.ship.None? && EpochOf(row.value.tag) == Some(epoch)
  }

  function EpochCount(rows: Rows, epoch: nat): nat {
    if rows == [] then 0
    else
      var n := |rows| - 1;
      EpochCount(rows[..n], epoch) + if InEpoch(rows[n], epoch) then 1 else 0
  }

  function NextLabel(rows: Rows): string {
    Label(LastShip(rows), EpochCount(rows, LastShip(rows)))
  }

  predicate Carries(row: Option<Issue>, tag: string) {
    row.Some? && row.value.tag == tag
  }

  /** UNIQUE(display_label). */
  predicate TagTaken(rows: Rows, tag: string) {
    exists i :: 0 <= i < |rows| && Carries(rows[i], tag)
  }

  predicate Numbered(row: Option<Issue>, n: nat) {
    row.Some? && row.value.ship == Some(n)
  }

  /** UNIQUE(ship_number) and UNIQUE(display_label) against every other row. */
  predicate NumberTaken(rows: Rows, id: nat, n: nat) {
    exists i :: 0 <= i < |rows| && i != id && (Numbered(rows[i], n) || Carries(rows[i], Numeral(n)))
  }

  predicate IsDue(rows: Rows, id: nat, now: int) {
    && Has(rows, id, Approved)
    && rows[id].value.scheduled.Some? && rows[id].value.scheduled.value <= now
  }

  // ----- operator steps -----

  function SendTime(requested: Option<int>, now: int): int {
    if requested.None? || requested.value <= now then now + DEFAULT_DELAY else requested.value
  }

  predicate CanApprove(rows: Rows, id: nat) {
    Has(rows, id, Draft) || Has(rows, id, AwaitingApproval)
  }

  predicate CanCancel(rows: Rows, id: nat, now: int) {
    && Has(rows, id, Approved)
    && rows[id].value.scheduled.Some? && rows[id].value.scheduled.value > now
  }

  function Set(rows: Rows, id: nat, issue: Issue): Rows
    requires id < |rows|
  {
    rows[id := Some(issue)]
  }

  function ApproveRow(rows: Rows, id: nat, requested: Option<int>, now: int): Rows {
    if CanApprove(rows, id)
    then Set(rows, id, rows[id].value.(status := Approved, scheduled := Some(SendTime(requested, now))))
    else rows
  }

  function CancelRow(rows: Rows, id: nat, now: int): Rows {
    if CanCancel(rows, id, now) then Set(rows, id, rows[id].value.(status := AwaitingApproval, scheduled := None)) else rows
  }

  /** The write of an unpublish that saw the issue in status `seen`. */
  function UnpublishRow(rows: Rows, id: nat, seen: Status): Rows {
    if !Live(rows, id) then rows
    else if seen == Sent || seen == Sending then Set(rows, id, rows[id].value.(hidden := true))
    else if seen == Approved then
      Set(rows, id, rows[id].value.(hidden := true, scheduled := None, status := AwaitingApproval))
    else rows
  }

  /** Read and write of an unpublish as one step; a hidden issue is left alone. */
  function UnpublishWhole(rows: Rows, id: nat): Rows {
    if Live(rows, id) && !rows[id].value.hidden then UnpublishRow(rows, id, rows[id].value.status) else rows
  }

  function DeleteRow(rows: Rows, id: nat): Rows {
    if Live(rows, id) then rows[id := None] else rows
  }

  function RescheduleRow(rows: Rows, id: nat, at: int): Rows {
    if Live(rows, id) then Set(rows, id, rows[id].value.(scheduled := Some(at))) else rows
  }

  // ----- drafting -----

  predicate NewKind(kind: Status) {
    kind == Draft || kind == AwaitingApproval || kind == Skipped
  }

  function Fresh(tag: string, kind: Status): Issue {
    Issue(tag, kind, None, None, false)
  }

  /** The second query counts the unshipped rows of the epoch the first one found. */
  function CountStep(s: State, session: nat): State {
    if session !in s.drafts || !s.drafts[session].Reading? then s
    else
      var last := s.drafts[session].last;
      s.(drafts := s.drafts[session := Named(Label(last, EpochCount(s.rows, last)))])
  }

  function InsertStep(s: State, session: nat, kind: Status): State {
    if session !in s.drafts || !s.drafts[session].Named? || !NewKind(kind) then s
    else
      var tag, forgotten := s.drafts[session].tag, s.(drafts := s.drafts - {session});
      if TagTaken(s.rows, tag) then forgotten else forgotten.(rows := s.rows + [Some(Fresh(tag, kind))])
  }

  // ----- dispatcher steps -----

  function At(s: State, w: nat): Dispatcher {
    if w in s.dispatchers then s.dispatchers[w] else Dispatcher([], Resting)
  }

  function Put(s: State, w: nat, phase: Phase): State {
    s.(dispatchers := s.dispatchers[w := At(s, w).(phase := phase)])
  }

  function PollStep(s: State, w: nat, now: int, found: seq<nat>): State {
    if At(s, w).phase.Resting? && At(s, w).due == [] && (forall id :: id in found ==> IsDue(s.rows, id, now))
    then s.(dispatchers := s.dispatchers[w := Dispatcher(found, Resting)])
    else s
  }

  /** The guarded UPDATE: whoever finds the issue approved takes it. */
  function ClaimStep(s: State, w: nat): State {
    var d := At(s, w);
    if !d.phase.Resting? || d.due == [] then s
    else if Has(s.rows, d.due[0], Approved) then
      s.(rows := Set(s.rows, d.due[0], s.rows[d.due[0]].value.(status := Sending)),
         dispatchers := s.dispatchers[w := Dispatcher(d.due[1..], Assigning(d.due[0], 0))])
    else s.(dispatchers := s.dispatchers[w := Dispatcher(d.due[1..], Resting)])
  }

  function ReadMaxStep(s: State, w: nat): State {
    var p := At(s, w).phase;
    if !p.Assigning? then s
    else if !Live(s.rows, p.id) then Put(s, w, Resting)
    else Put(s, w, Numbering(p.id, p.attempt, LastShip(s.rows) + 1))
  }

  /** The rollback of a failed numbering. The dispatcher's error handler writes it once
      more when it has seen the issue still sending. */
  function Revert(rows: Rows, id: nat): Rows {
    if Live(rows, id) then Set(rows, id, rows[id].value.(status := AwaitingApproval, scheduled := None)) else rows
  }

  /** Store the number, or collide: another attempt, and after the last one the
      issue goes back to the operator. */
  function CommitStep(s: State, w: nat): State {
    var p := At(s, w).phase;
    if !p.Numbering? then s
    else if !Live(s.rows, p.id) then Put(s, w, Resting)
    else if !NumberTaken(s.rows, p.id, p.number) then
      Put(s.(rows := Set(s.rows, p.id, s.rows[p.id].value.(ship := Some(p.number), tag := Numeral(p.number)))), w, Ready(p.id))
    else if p.attempt + 1 < ATTEMPTS then Put(s, w, Assigning(p.id, p.attempt + 1))
    else Put(s.(rows := Revert(s.rows, p.id)), w, Resting)
  }

  /** Any other failure before the first send, with its rollback. */
  function HaltStep(s: State, w: nat): State {
    var p := At(s, w).phase;
    if !p.Assigning? && !p.Numbering? then s
    else Put(s.(rows := if Has(s.rows, p.id, Sending) then Revert(s.rows, p.id) else s.rows), w, Resting)
  }

  /** Subscriber rows have distinct ids. */
  predicate NoRepeats(subscribers: seq<nat>) {
    forall i, j :: 0 <= i < j < |subscribers| ==> subscribers[i] != subscribers[j]
  }

  function BeginStep(s: State, w: nat, subscribers: seq<nat>): State {
    var p := At(s, w).phase;
    if !p.Ready? || !NoRepeats(subscribers) then s
    else Put(s.(log := s.log + [Began(p.id)], audience := s.audience[p.id := subscribers]), w, Delivering(p.id, [], subscribers))
  }

  function DeliverStep(s: State, w: nat): State {
    var p := At(s, w).phase;
    if !p.Delivering? || p.todo == [] then s
    else Put(s.(log := s.log + [Email(p.id, p.todo[0])]), w, Delivering(p.id, p.done + [p.todo[0]], p.todo[1..]))
  }

  function PostStep(s: State, w: nat): State {
    var p := At(s, w).phase;
    if !p.Delivering? || p.todo != [] then s
    else Put(s.(log := s.log + [LinkedIn(p.id)]), w, Posted(p.id, p.done))
  }

  function FinalizeStep(s: State, w: nat): State {
    var p := At(s, w).phase;
    if !p.Posted? then s
    else if !Live(s.rows, p.id) then Put(s, w, Resting)
    else Put(s.(rows := Set(s.rows, p.id, s.rows[p.id].value.(status := Sent)), log := s.log + [Web(p.id)]), w, Resting)
  }

  function Apply(s: State, e: Event): State {
    match e
    case ReadLastShip(session) => s.(drafts := s.drafts[session := Reading(LastShip(s.rows))])
    case ReadCount(session) => CountStep(s, session)
    case Insert(session, kind) => InsertStep(s, session, kind)
    case Approve(id, requested, now) => s.(rows := ApproveRow(s.rows, id, requested, now))
    case Cancel(id, now) => s.(rows := CancelRow(s.rows, id, now))
    case Unpublish(id) => s.(rows := UnpublishWhole(s.rows, id))
    case UnpublishWrite(id, seen) => s.(rows := UnpublishRow(s.rows, id, seen))
    case LateRollback(id) => s.(rows := Revert(s.rows, id))
    case Delete(id) => s.(rows := DeleteRow(s.rows, id))
    case Reschedule(id, at) => s.(rows := RescheduleRow(s.rows, id, at))
    case Poll(w, now, found) => PollStep(s, w, now, found)
    case Enlist(w, id) => s.(dispatchers := s.dispatchers[w := At(s, w).(due := At(s, w).due + [id])])
    case Claim(w) => ClaimStep(s, w)
    case ReadMax(w) => ReadMaxStep(s, w)
    case Commit(w) => CommitStep(s, w)
    case Halt(w) => HaltStep(s, w)
    case Begin(w, subscribers) => BeginStep(s, w, subscribers)
    case Deliver(w) => DeliverStep(s, w)
    case Post(w) => PostStep(s, w)
    case Finalize(w) => FinalizeStep(s, w)
    case Abandon(w) => Put(s, w, Resting)
    case Crash(w) => s.(dispatchers := s.dispatchers - {w})
  }

  function Run(s: State, events: seq<Event>): State
    decreases events
  {
    if events == [] then s else Run(Apply(s, events[0]), events[1..])
  }

  lemma {:induction false} RunConcat(s: State, a: seq<Event>, b: seq<Event>)
    ensures Run(s, a + b) == Run(Run(s, a), b)
    decreases a
  {
    if a == [] {
      assert a + b == b;
    } else {
      assert (a + b)[1..] == a[1..] + b;
      RunConcat(Apply(s, a[0]), a[1..], b);
    }
  }

  lemma RunNext(s: State, trace: seq<Event>, e: Event)
    ensures Run(s, trace + [e]) == Apply(Run(s, trace), e)
  {
    RunConcat(s, trace, [e]);
    assert Run(Run(s, trace), [e]) == Run(Apply(Run(s, trace), e), []);
  }
}
