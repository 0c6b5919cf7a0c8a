/** The discovery scheduler: reconciling the table of sources with the declared
    watchlist, choosing what is due, and recording what a poll found without ever
    storing the same find twice. */
module DiscoveryScheduler {
  import opened Text
  import opened StableSort

  /** One watchlist entry. `documented` and `safe` stand for the provenance fields
      being filled in and the target passing its safety check. */
  datatype Seed = Seed(
    name: string, watchType: string, target: string, cadence: string, floor: string, active: bool, documented: bool, safe: bool)

  /** One row of the source table; from `lastPolled` on it is polling state. */
  datatype Source = Source(
    name: string, watchType: string, target: string, interval: int, floor: string, active: bool,
    lastPolled: Option<int>, status: string, error: string, failures: nat, etag: string, lastModified: string)

  const WATCH_TYPES := {
    "github_repo_watch", "github_repo_artifact_scan", "github_topic_watch", "github_user_org_watch", "rss_feed",
    "subreddit_watch", "youtube_channel_watch", "web_diff", "saved_search"}
  const CADENCES: map<string, int> := map["hourly" := 3600, "every_6h" := 21600, "daily" := 86400, "weekly" := 604800]
  const FLOORS := {"low", "normal", "high"}
  const ACTIVE_LIMIT: nat := 200

  // ----- validation -----

  predicate WellFormed(e: Seed) {
    && Strip(e.name) != "" && e.watchType in WATCH_TYPES && e.cadence in CADENCES && e.floor in FLOORS
    && e.documented && e.safe
  }

  ghost predicate StrippedDistinct(seed: seq<Seed>) {
    forall i, j :: 0 <= i < j < |seed| ==> Strip(seed[i].name) != Strip(seed[j].name)
  }

  ghost predicate ValidSeed(seed: seq<Seed>) {
    (forall i :: 0 <= i < |seed| ==> WellFormed(seed[i])) && StrippedDistinct(seed)
  }

  /** All errors are gathered before any is reported. */
  method ValidateWatchlist(seed: seq<Seed>) returns (ok: bool)
    ensures ok <==> ValidSeed(seed)
  {
    var names: set<string> := {};
    var errors := 0;
    for i := 0 to |seed|
      invariant errors >= 0
      invariant errors == 0 <==> ValidSeed(seed[..i])
      invariant errors == 0 ==> names == set k | 0 <= k < i :: Strip(seed[k].name)
    {
      var e := seed[i];
      var name := Strip(e.name);
      ghost var before := errors;
      if name in names {
        errors := errors + 1;
      }
      if name == "" || e.watchType !in WATCH_TYPES || e.cadence !in CADENCES || e.floor !in FLOORS {
        errors := errors + 1;
      } else if !e.documented || !e.safe {
        errors := errors + 1;
      }
      SeedNext(seed, i, names);
      names := names + {name};
    }
    assert seed[..|seed|] == seed;
    ok := errors == 0;
  }

  lemma SeedNext(seed: seq<Seed>, i: nat, names: set<string>)
    requires i < |seed|
    ensures names == (set k | 0 <= k < i :: Strip(seed[k].name)) ==>
              (ValidSeed(seed[..i + 1]) <==> ValidSeed(seed[..i]) && WellFormed(seed[i]) && Strip(seed[i].name) !in names)
    ensures ValidSeed(seed[..i + 1]) ==> ValidSeed(seed[..i])
  {
    var a, b := seed[..i], seed[..i + 1];
    assert forall k :: 0 <= k < i ==> a[k] == b[k];
    assert b[i] == seed[i];
    if names == (set k | 0 <= k < i :: Strip(seed[k].name)) && Strip(seed[i].name) in names {
      var k :| 0 <= k < i && Strip(seed[k].name) == Strip(seed[i].name);
      assert Strip(b[k].name) == Strip(b[i].name);
    }
  }

  // ----- reconciliation -----

  function Seconds(cadence: string): int {
    if cadence in CADENCES then CADENCES[cadence] else 0
  }

  /** The row is what its entry declares. */
  predicate Matches(e: Seed, r: Source) {
    && r.name == e.name && r.watchType == e.watchType && r.target == e.target
    && r.interval == Seconds(e.cadence) && r.floor == e.floor && r.active == e.active
  }

  /** The declared fields replaced, the polling state kept. */
  function Patch(e: Seed, r: Source): Source {
    r.(watchType := e.watchType, target := e.target, interval := Seconds(e.cadence), floor := e.floor, active := e.active)
  }

  function Build(e: Seed): Source {
    Source(e.name, e.watchType, e.target, Seconds(e.cadence), e.floor, e.active, None, "", "", 0, "", "")
  }

  function IndexOf(rows: seq<Source>, name: string): (r: Option<nat>)
    ensures r.Some? ==> r.value < |rows| && rows[r.value].name == name
    ensures r.None? ==> forall i :: 0 <= i < |rows| ==> rows[i].name != name
  {
    if rows == [] then None
    else if rows[|rows| - 1].name == name then Some(|rows| - 1)
    else IndexOf(rows[..|rows| - 1], name)
  }

  function Row(rows: seq<Source>, name: string): (r: Option<Source>)
    ensures r.Some? ==> r.value in rows && r.value.name == name
  {
    var i := IndexOf(rows, name);
    if i.Some? then Some(rows[i.value]) else None
  }

  /** UNIQUE(name). */
  ghost predicate UniqueNames(rows: seq<Source>) {
    forall i, j :: 0 <= i < j < |rows| ==> rows[i].name != rows[j].name
  }

  /** What a name's row should be after reconciliation. */
  function Reconciled(e: Seed, row: Option<Source>): Source {
    if row.Some? then Patch(e, row.value) else Build(e)
  }

  function Missing(rows: seq<Source>): Seed -> bool {
    (e: Seed) => Row(rows, e.name).None?
  }

  function Drifted(rows: seq<Source>): Seed -> bool {
    (e: Seed) => Row(rows, e.name).Some? && !Matches(e, Row(rows, e.name).value)
  }

  lemma RowAt(rows: seq<Source>, i: nat)
    requires UniqueNames(rows) && i < |rows|
    ensures Row(rows, rows[i].name) == Some(rows[i])
  {
  }

  lemma RowAfter(rows: seq<Source>, rows': seq<Source>, e: Seed)
    requires UniqueNames(rows)
    requires var i := IndexOf(rows, e.name);
             rows' == if i.Some? then rows[i.value := Patch(e, rows[i.value])] else rows + [Build(e)]
    ensures UniqueNames(rows')
    ensures forall n :: Row(rows', n) == if n == e.name then Some(Reconciled(e, Row(rows, e.name))) else Row(rows, n)
  {
    var at := IndexOf(rows, e.name);
    var here := if at.Some? then at.value else |rows|;
    assert forall k :: 0 <= k < |rows| && k != here ==> rows'[k] == rows[k];
    assert UniqueNames(rows');
    RowAt(rows', here);
    forall n | n != e.name ensures Row(rows', n) == Row(rows, n) {
      var i := IndexOf(rows, n);
      if i.Some? {
        RowAt(rows, i.value);
        RowAt(rows', i.value);
      } else {
        assert forall k :: 0 <= k < |rows'| ==> rows'[k].name != n;
      }
    }
  }

  ghost predicate DistinctNames(seed: seq<Seed>) {
    forall i, j :: 0 <= i < j < |seed| ==> seed[i].name != seed[j].name
  }

  /** Names distinct after stripping are distinct. */
  lemma NamesDistinct(seed: seq<Seed>)
    requires StrippedDistinct(seed)
    ensures DistinctNames(seed)
  {
  }

  /** One of the first `n` entries has the name. */
  predicate Declared(seed: seq<Seed>, n: nat, name: string) {
    exists k :: 0 <= k < n <= |seed| && seed[k].name == name
  }

  /** A table as a lookup by name. */
  function Look(rows: seq<Source>): string -> Option<Source> {
    (name: string) => Row(rows, name)
  }

  ghost predicate RowDone(before: string -> Option<Source>, after: string -> Option<Source>, e: Seed) {
    after(e.name) == Some(Reconciled(e, before(e.name)))
  }

  /** The table reached after the first `n` entries: exactly those are reconciled. */
  ghost predicate ReconciledUpTo(before: string -> Option<Source>, after: string -> Option<Source>, seed: seq<Seed>, n: nat) {
    && n <= |seed|
    && (forall k :: 0 <= k < n ==> RowDone(before, after, seed[k]))
    && (forall name :: !Declared(seed, n, name) ==> after(name) == before(name))
  }

  lemma UpToNext(before: string -> Option<Source>, now: string -> Option<Source>, next: string -> Option<Source>, seed: seq<Seed>, n: nat)
    requires DistinctNames(seed) && n < |seed| && ReconciledUpTo(before, now, seed, n)
    requires next(seed[n].name) == Some(Reconciled(seed[n], now(seed[n].name)))
    requires forall name :: name != seed[n].name ==> next(name) == now(name)
    ensures ReconciledUpTo(before, next, seed, n + 1)
  {
    UntouchedSoFar(before, now, seed, n);
    forall k | 0 <= k < n + 1 ensures RowDone(before, next, seed[k]) {
      if k < n {
        assert RowDone(before, now, seed[k]) && seed[k].name != seed[n].name;
      }
    }
    forall name | !Declared(seed, n + 1, name) ensures next(name) == before(name) {
      assert seed[n].name != name;
      assert !Declared(seed, n, name);
    }
  }

  lemma UntouchedSoFar(before: string -> Option<Source>, now: string -> Option<Source>, seed: seq<Seed>, n: nat)
    requires DistinctNames(seed) && n < |seed| && ReconciledUpTo(before, now, seed, n)
    ensures now(seed[n].name) == before(seed[n].name)
  {
    assert !Declared(seed, n, seed[n].name);
  }

  // ----- what is due -----

  predicate Elapsed(now: int, r: Source) {
    r.lastPolled.None? || now - r.lastPolled.value >= r.interval
  }

  function Active(): Source -> bool {
    (r: Source) => r.active
  }

  function DueAt(now: int): Source -> bool {
    (r: Source) => Elapsed(now, r)
  }

  function Take<T>(s: seq<T>, n: nat): seq<T> {
    if |s| <= n then s else s[..n]
  }

  /** Active sources whose cadence has elapsed, among the first 200 active ones. */
  function Due(rows: seq<Source>, now: int): seq<Source> {
    Filter(DueAt(now), Take(Filter(Active(), rows), ACTIVE_LIMIT))
  }

  // ----- what a poll found -----

  datatype Candidate = Candidate(
    externalId: string, kind: string, title: string, category: string, children: int, payload: string, upstream: Option<int>)

  datatype Find = Find(
    source: string, externalId: string, kind: string, title: string, status: string,
    category: string, children: int, payload: string, upstream: Option<int>, firstSeen: int, lastSeen: int)

  const TITLE_LIMIT: nat := 512

  predicate IsFind(f: Find, source: string, id: string) {
    f.source == source && f.externalId == id
  }

  function FindIndex(finds: seq<Find>, source: string, id: string): (r: Option<nat>)
    ensures r.Some? ==> r.value < |finds| && IsFind(finds[r.value], source, id)
    ensures r.None? ==> forall i :: 0 <= i < |finds| ==> !IsFind(finds[i], source, id)
  {
    if finds == [] then None
    else if IsFind(finds[|finds| - 1], source, id) then Some(|finds| - 1)
    else FindIndex(finds[..|finds| - 1], source, id)
  }

  predicate Seen(finds: seq<Find>, source: string, id: string) {
    exists i :: 0 <= i < |finds| && IsFind(finds[i], source, id)
  }

  /** UNIQUE(discovery_source_id, external_id). */
  ghost predicate UniqueFinds(finds: seq<Find>) {
    forall i, j :: 0 <= i < j < |finds| ==> !IsFind(finds[i], finds[j].source, finds[j].externalId)
  }

  /** Seen again: rollups carry their live content on every poll. */
  function Refreshed(f: Find, c: Candidate, now: int): Find {
    var seen := f.(lastSeen := now);
    if c.category == "" then seen
    else seen.(category := c.category, children := c.children, payload := c.payload,
               upstream := if c.upstream.Some? then c.upstream else f.upstream)
  }

  function Stored(source: string, c: Candidate, status: string, now: int): Find {
    Find(source, c.externalId, c.kind, Take(c.title, TITLE_LIMIT), status, c.category, c.children, c.payload, c.upstream, now, now)
  }

  function PersistOne(finds: seq<Find>, source: string, c: Candidate, status: Candidate -> string, now: int): seq<Find> {
    match FindIndex(finds, source, c.externalId)
    case Some(i) => finds[i := Refreshed(finds[i], c, now)]
    case None => finds + [Stored(source, c, status(c), now)]
  }

  function Persisted(finds: seq<Find>, source: string, cs: seq<Candidate>, status: Candidate -> string, now: int): seq<Find> {
    if cs == [] then finds
    else PersistOne(Persisted(finds, source, cs[..|cs| - 1], status, now), source, cs[|cs| - 1], status, now)
  }

  /** What becomes of one candidate: a row of its own the first time; afterwards the time
      it was last seen, and for a rollup its live content, with the review untouched. */
  lemma PersistOneSays(finds: seq<Find>, source: string, c: Candidate, status: Candidate -> string, now: int)
    ensures var finds' := PersistOne(finds, source, c, status, now);
            if Seen(finds, source, c.externalId) then
              && |finds'| == |finds|
              && exists i :: 0 <= i < |finds| && IsFind(finds[i], source, c.externalId) && finds'[..i] + finds'[i + 1..] == finds[..i] + finds[i + 1..]
                   && finds'[i].lastSeen == now && SameFind(finds[i], finds'[i])
                   && (if c.category == "" then finds'[i] == finds[i].(lastSeen := now)
                       else finds'[i].category == c.category && finds'[i].children == c.children && finds'[i].payload == c.payload
                            && finds'[i].upstream == (if c.upstream.None? then finds[i].upstream else c.upstream))
            else
              && |finds'| == |finds| + 1 && finds'[..|finds|] == finds
              && var f := finds'[|finds|];
                 && IsFind(f, source, c.externalId) && f.kind == c.kind && f.status == status(c) && f.firstSeen == f.lastSeen == now
                 && f.title <= c.title && (|f.title| == 512 < |c.title| || f.title == c.title)
                 && f.category == c.category && f.children == c.children && f.payload == c.payload && f.upstream == c.upstream
  {
    var at := FindIndex(finds, source, c.externalId);
    FoundIffSeen(finds, source, c.externalId);
    if at.Some? {
      var i := at.value;
      var finds' := PersistOne(finds, source, c, status, now);
      assert finds'[..i] == finds[..i] && finds'[i + 1..] == finds[i + 1..];
      assert IsFind(finds[i], source, c.externalId);
    }
  }

  /** The ids of a poll that were not stored before it. */
  function Unseen(finds: seq<Find>, source: string, cs: seq<Candidate>): set<string> {
    set c | c in cs && !Seen(finds, source, c.externalId) :: c.externalId
  }

  /** What storing finds does to the rows already there: review and first sighting
      are never touched. */
  predicate SameFind(a: Find, b: Find) {
    a.source == b.source && a.externalId == b.externalId && a.kind == b.kind && a.title == b.title
    && a.status == b.status && a.firstSeen == b.firstSeen
  }

  ghost predicate Extends(finds: seq<Find>, finds': seq<Find>) {
    |finds| <= |finds'| && forall i :: 0 <= i < |finds| ==> SameFind(finds[i], finds'[i])
  }

  lemma FoundIffSeen(finds: seq<Find>, source: string, id: string)
    ensures FindIndex(finds, source, id).Some? <==> Seen(finds, source, id)
  {
  }

  lemma ExtendsTwice(a: seq<Find>, b: seq<Find>, c: seq<Find>)
    requires Extends(a, b) && Extends(b, c)
    ensures Extends(a, c)
  {
    forall i | 0 <= i < |a| ensures SameFind(a[i], c[i]) {
      assert SameFind(a[i], b[i]) && SameFind(b[i], c[i]);
    }
  }

  lemma PersistOneFacts(finds: seq<Find>, source: string, c: Candidate, status: Candidate -> string, now: int)
    requires UniqueFinds(finds)
    ensures var finds' := PersistOne(finds, source, c, status, now);
            && UniqueFinds(finds') && Extends(finds, finds')
            && forall s, id :: Seen(finds', s, id) <==> Seen(finds, s, id) || (s == source && id == c.externalId)
  {
    var finds' := PersistOne(finds, source, c, status, now);
    forall s, id ensures Seen(finds', s, id) <==> Seen(finds, s, id) || (s == source && id == c.externalId) {
      if Seen(finds, s, id) {
        var i :| 0 <= i < |finds| && IsFind(finds[i], s, id);
        assert IsFind(finds'[i], s, id);
      }
      if s == source && id == c.externalId {
        var i := FindIndex(finds, source, c.externalId);
        assert IsFind(finds'[if i.Some? then i.value else |finds|], s, id);
      }
      if Seen(finds', s, id) {
        var i :| 0 <= i < |finds'| && IsFind(finds'[i], s, id);
        assert i < |finds| ==> IsFind(finds[i], s, id);
      }
    }
  }

  /** Storing a poll keeps (source, external id) unique, leaves every stored row's
      review alone, and makes exactly the poll's ids known. */
  lemma {:induction false} PersistedFacts(finds: seq<Find>, source: string, cs: seq<Candidate>, status: Candidate -> string, now: int)
    requires UniqueFinds(finds)
    ensures var finds' := Persisted(finds, source, cs, status, now);
            && UniqueFinds(finds') && Extends(finds, finds')
            && forall s, id :: Seen(finds', s, id) <==> Seen(finds, s, id) || (s == source && exists c :: c in cs && c.externalId == id)
  {
    if cs != [] {
      var n := |cs| - 1;
      PersistedFacts(finds, source, cs[..n], status, now);
      PersistOneFacts(Persisted(finds, source, cs[..n], status, now), source, cs[n], status, now);
      assert cs == cs[..n] + [cs[n]];
    }
  }

  lemma UnseenNext(finds: seq<Find>, source: string, cs: seq<Candidate>, i: nat, status: Candidate -> string, now: int)
    requires UniqueFinds(finds) && i < |cs|
    ensures var known := Seen(Persisted(finds, source, cs[..i], status, now), source, cs[i].externalId);
            && |Unseen(finds, source, cs[..i + 1])| == |Unseen(finds, source, cs[..i])| + (if known then 0 else 1)
  {
    PersistedFacts(finds, source, cs[..i], status, now);
    var c := cs[i];
    assert cs[..i + 1] == cs[..i] + [c];
    var before, after := Unseen(finds, source, cs[..i]), Unseen(finds, source, cs[..i + 1]);
    if Seen(finds, source, c.externalId) {
      assert after == before;
    } else {
      assert after == before + {c.externalId};
    }
  }

  /** The table grows by exactly the unseen ids of the poll. */
  lemma {:induction false} PersistedGrows(finds: seq<Find>, source: string, cs: seq<Candidate>, status: Candidate -> string, now: int)
    requires UniqueFinds(finds)
    ensures |Persisted(finds, source, cs, status, now)| == |finds| + |Unseen(finds, source, cs)|
  {
    if cs != [] {
      var n := |cs| - 1;
      PersistedGrows(finds, source, cs[..n], status, now);
      UnseenNext(finds, source, cs, n, status, now);
      FoundIffSeen(Persisted(finds, source, cs[..n], status, now), source, cs[n].externalId);
      assert cs[..n + 1] == cs;
    }
  }

  // ----- the scheduler -----

  /** How polling one source ends: no result, a result that is stored, a result whose
      storing fails and is rolled back, or one whose finds are stored before the
      source's own row cannot be. */
  datatype Poll =
    | NoResult(error: string)
    | Result(found: seq<Candidate>, status: string, etag: string, lastModified: string)
    | Unstorable(error: string)
    | HalfStored(found: seq<Candidate>, error: string)
  {
    function Kept(): seq<Candidate> {
      if Result? || HalfStored? then found else []
    }
  }

  /** The table after a pass has closed `jobs` in turn. */
  function StoredBy(finds: seq<Find>, jobs: seq<Source>, polls: Source -> Poll, status: Candidate -> string, now: int): seq<Find> {
    if jobs == [] then finds
    else
      var n := |jobs| - 1;
      Persisted(StoredBy(finds, jobs[..n], polls, status, now), jobs[n].name, polls(jobs[n]).Kept(), status, now)
  }

  /** New finds that no summary reports: those of the half-stored polls. */
  function Stranded(finds: seq<Find>, jobs: seq<Source>, polls: Source -> Poll, status: Candidate -> string, now: int): nat {
    if jobs == [] then 0
    else
      var n := |jobs| - 1;
      Stranded(finds, jobs[..n], polls, status, now)
      + (if polls(jobs[n]).HalfStored?
         then |Unseen(StoredBy(finds, jobs[..n], polls, status, now), jobs[n].name, polls(jobs[n]).found)| else 0)
  }

  predicate NoneHalfStored(jobs: seq<Source>, polls: Source -> Poll) {
    forall r :: r in jobs ==> !polls(r).HalfStored?
  }

  lemma {:induction false} NothingStranded(finds: seq<Find>, jobs: seq<Source>, polls: Source -> Poll, status: Candidate -> string, now: int)
    requires NoneHalfStored(jobs, polls)
    ensures Stranded(finds, jobs, polls, status, now) == 0
  {
    if jobs != [] {
      NothingStranded(finds, jobs[..|jobs| - 1], polls, status, now);
    }
  }

  /** The table stands where the closed jobs leave it, and has grown by the finds
      reported and the stranded ones. */
  predicate Accounts(start: seq<Find>, finds: seq<Find>, added: int, jobs: seq<Source>,
                     polls: Source -> Poll, status: Candidate -> string, now: int)
  {
    && finds == StoredBy(start, jobs, polls, status, now)
    && |finds| == |start| + added + Stranded(start, jobs, polls, status, now)
  }

  lemma AccountsNext(start: seq<Find>, before: seq<Find>, after: seq<Find>, added: int, more: int, jobs: seq<Source>, j: nat,
                     polls: Source -> Poll, status: Candidate -> string, now: int)
    requires j < |jobs| && UniqueFinds(before) && Accounts(start, before, added, jobs[..j], polls, status, now)
    requires after == Persisted(before, jobs[j].name, polls(jobs[j]).Kept(), status, now)
    requires more == if polls(jobs[j]).Result? then |Unseen(before, jobs[j].name, polls(jobs[j]).Kept())| else 0
    ensures Accounts(start, after, added + more, jobs[..j + 1], polls, status, now)
  {
    assert jobs[..j + 1][..j] == jobs[..j];
    PersistedGrows(before, jobs[j].name, polls(jobs[j]).Kept(), status, now);
  }

  datatype Summary = Summary(source: string, ok: bool, added: nat, repeated: nat)

  datatype Report = Report(due: nat, polled: nat, failed: nat, added: nat, repeated: nat, summaries: seq<Summary>)

  function Handled(handlers: set<string>): Source -> bool {
    (r: Source) => r.watchType in handlers
  }

  function Unhandled(handlers: set<string>): Source -> bool {
    (r: Source) => r.watchType !in handlers
  }

  function Name(): Source -> seq<string> {
    (r: Source) => [r.name]
  }

  function SummaryName(): Summary -> seq<string> {
    (r: Summary) => [r.source]
  }

  /** The totals of a report, from its summaries. */
  function Tally(summaries: seq<Summary>): (nat, nat, nat, nat) {
    if summaries == [] then (0, 0, 0, 0)
    else
      var n := |summaries| - 1;
      var (polled, failed, added, repeated) := Tally(summaries[..n]);
      var one := summaries[n];
      (if one.ok then polled + 1 else polled, if one.ok then failed else failed + 1, added + one.added, repeated + one.repeated)
  }

  lemma TallyNext(summaries: seq<Summary>, one: Summary)
    ensures var t, t' := Tally(summaries), Tally(summaries + [one]);
            t' == (if one.ok then t.0 + 1 else t.0, if one.ok then t.1 else t.1 + 1, t.2 + one.added, t.3 + one.repeated)
  {
    assert (summaries + [one])[..|summaries|] == summaries;
  }

  lemma {:induction false} TallyCounts(summaries: seq<Summary>)
    ensures Tally(summaries).0 + Tally(summaries).1 == |summaries|
  {
    if summaries != [] {
      TallyCounts(summaries[..|summaries| - 1]);
    }
  }

  /** One more summary, with the totals that go with it. */
  function Add(report: Report, one: Summary): Report {
    report.(summaries := report.summaries + [one], added := report.added + one.added, repeated := report.repeated + one.repeated,
            polled := if one.ok then report.polled + 1 else report.polled,
            failed := if one.ok then report.failed else report.failed + 1)
  }

  lemma AddAgrees(report: Report, one: Summary)
    requires Agrees(report)
    ensures Agrees(Add(report, one)) && Add(report, one).due == report.due
    ensures FlatMap(SummaryName(), Add(report, one).summaries) == FlatMap(SummaryName(), report.summaries) + [one.source]
  {
    TallyNext(report.summaries, one);
    NamesNext(report.summaries, one);
  }

  lemma SummariesNamed(summaries: seq<Summary>)
    ensures |FlatMap(SummaryName(), summaries)| == |summaries|
  {
    SingletonsAt(SummaryName(), summaries);
  }

  lemma SourcesNamed(due: seq<Source>)
    ensures |FlatMap(Name(), due)| == |due|
  {
    SingletonsAt(Name(), due);
  }

  lemma NamesNext(summaries: seq<Summary>, one: Summary)
    ensures FlatMap(SummaryName(), summaries + [one]) == FlatMap(SummaryName(), summaries) + [one.source]
  {
    FlatMapConcat(SummaryName(), summaries, [one]);
    assert FlatMap(SummaryName(), [one]) == [one.source];
  }

  /** A row stamped by a poll keeps its name and its declaration. */
  predicate SameDeclaration(a: Source, b: Source) {
    a.name == b.name && a.watchType == b.watchType && a.target == b.target && a.interval == b.interval
    && a.floor == b.floor && a.active == b.active
  }

  ghost predicate Stamps(rows: seq<Source>, rows': seq<Source>) {
    |rows| == |rows'| && forall i :: 0 <= i < |rows| ==> SameDeclaration(rows[i], rows'[i])
  }

  /** What a poll leaves on its source's row: the time, and either the result's state with
      the failures forgotten, or the error and one failure more. An empty validator
      from the server does not replace the one that is kept. */
  ghost predicate Polled(was: Source, row: Source, now: int, poll: Poll) {
    && SameDeclaration(was, row) && row.lastPolled == Some(now)
    && (poll.Result? ==>
          && row.status == poll.status && row.error == "" && row.failures == 0
          && row.etag == (if poll.etag == "" then was.etag else poll.etag)
          && row.lastModified == (if poll.lastModified == "" then was.lastModified else poll.lastModified))
    && (!poll.Result? ==>
          && row.status == "error" && row.error <= poll.error && (|row.error| == 1024 < |poll.error| || row.error == poll.error)
          && row.failures == was.failures + 1 && row.etag == was.etag && row.lastModified == was.lastModified)
  }

  datatype Reconciliation = Counts(created: nat, updated: nat) | InvalidWatchlist

  class Scheduler {
    var sources: seq<Source>
    var finds: seq<Find>

    constructor ()
      ensures sources == [] && finds == []
    {
      sources, finds := [], [];
    }

    /** `reconcile_watchlist_seed`. */
    method ReconcileWatchlistSeed(seed: seq<Seed>) returns (r: Reconciliation)
      requires UniqueNames(sources)
      modifies this`sources
      ensures r.InvalidWatchlist? <==> !ValidSeed(seed)
      ensures r.InvalidWatchlist? ==> sources == old(sources)
      ensures r.Counts? ==>
                && UniqueNames(sources)
                && ReconciledUpTo(Look(old(sources)), Look(sources), seed, |seed|)
                && r.created == |Filter(Missing(old(sources)), seed)|
                && r.updated == |Filter(Drifted(old(sources)), seed)|
    {
      var ok := ValidateWatchlist(seed);
      if !ok {
        return InvalidWatchlist;
      }
      var created: nat, updated: nat := 0, 0;
      NamesDistinct(seed);
      ghost var before := sources;
      for n := 0 to |seed|
        invariant UniqueNames(sources) && ReconciledUpTo(Look(before), Look(sources), seed, n)
        invariant created == |Filter(Missing(before), seed[..n])|
        invariant updated == |Filter(Drifted(before), seed[..n])|
      {
        var e := seed[n];
        FilterNext(Missing(before), seed, n);
        FilterNext(Drifted(before), seed, n);
        var i := IndexOf(sources, e.name);
        ghost var rows := sources;
        UntouchedSoFar(Look(before), Look(rows), seed, n);
        if i.None? {
          sources := sources + [Build(e)];
          created := created + 1;
        } else {
          var existing, drift := PatchRow(e, sources[i.value]);
          sources := sources[i.value := existing];
          if drift {
            updated := updated + 1;
          }
        }
        RowAfter(rows, sources, e);
        UpToNext(Look(before), Look(rows), Look(sources), seed, n);
      }
      assert seed[..|seed|] == seed;
      return Counts(created, updated);
    }

    method SelectDueSources(now: int) returns (due: seq<Source>)
      ensures due == Due(sources, now)
      ensures forall r :: r in due ==> r in sources && r.active && (r.lastPolled.Some? ==> r.lastPolled.value + r.interval <= now)
      ensures |Filter(Active(), sources)| <= 200 ==>
                forall r :: r in sources && r.active && (r.lastPolled.Some? ==> r.lastPolled.value + r.interval <= now) ==> r in due
    {
      var rows := Take(Filter(Active(), sources), ACTIVE_LIMIT);
      due := [];
      for i := 0 to |rows|
        invariant due == Filter(DueAt(now), rows[..i])
      {
        FilterNext(DueAt(now), rows, i);
        if rows[i].lastPolled.None? {
          due := due + [rows[i]];
        } else if now - rows[i].lastPolled.value >= rows[i].interval {
          due := due + [rows[i]];
        }
      }
      assert rows[..|rows|] == rows;
    }

    /** `_persist_finds`. */
    method PersistFinds(source: string, candidates: seq<Candidate>, status: Candidate -> string, now: int) returns (added: nat, repeated: nat)
      requires UniqueFinds(finds)
      modifies this`finds
      ensures UniqueFinds(finds) && finds == Persisted(old(finds), source, candidates, status, now)
      ensures added == |Unseen(old(finds), source, candidates)| && added + repeated == |candidates|
    {
      added, repeated := 0, 0;
      ghost var before := finds;
      for i := 0 to |candidates|
        invariant finds == Persisted(before, source, candidates[..i], status, now)
        invariant added == |Unseen(before, source, candidates[..i])| && added + repeated == i
      {
        var c := candidates[i];
        UnseenNext(before, source, candidates, i, status, now);
        FoundIffSeen(finds, source, c.externalId);
        assert candidates[..i + 1][..i] == candidates[..i];
        var at := FindIndex(finds, source, c.externalId);
        if at.Some? {
          var existing := SeeAgain(finds[at.value], c, now);
          finds := finds[at.value := existing];
          repeated := repeated + 1;
        } else {
          finds := finds + [Stored(source, c, status(c), now)];
          added := added + 1;
        }
      }
      assert candidates[..|candidates|] == candidates;
      PersistedFacts(before, source, candidates, status, now);
    }

    method SeeAgain(f: Find, c: Candidate, now: int) returns (existing: Find)
      ensures existing == Refreshed(f, c, now)
    {
      existing := f.(lastSeen := now);
      if c.category != "" {
        existing := existing.(category := c.category, children := c.children, payload := c.payload);
        if c.upstream.Some? {
          existing := existing.(upstream := c.upstream);
        }
      }
    }

    method RecordPoll(name: string, now: int, poll: Poll)
      requires UniqueNames(sources)
      modifies this`sources
      ensures UniqueNames(sources) && Stamps(old(sources), sources)
      ensures forall n :: n != name ==> Row(sources, n) == Row(old(sources), n)
      ensures Row(sources, name).Some? <==> Row(old(sources), name).Some?
      ensures Row(sources, name).Some? ==> Polled(Row(old(sources), name).value, Row(sources, name).value, now, poll)
    {
      var at := IndexOf(sources, name);
      if at.Some? {
        var row := sources[at.value];
        match poll {
          case Result(found, status, etag, lastModified) =>
            row := row.(lastPolled := Some(now), status := status, error := "", failures := 0,
                        etag := if etag != "" then etag else row.etag,
                        lastModified := if lastModified != "" then lastModified else row.lastModified);
          case NoResult(error) =>
            row := row.(lastPolled := Some(now), status := "error", error := Take(error, 1024), failures := row.failures + 1);
          case Unstorable(error) =>
            row := row.(lastPolled := Some(now), status := "error", error := Take(error, 1024), failures := row.failures + 1);
          case HalfStored(found, error) =>
            row := row.(lastPolled := Some(now), status := "error", error := Take(error, 1024), failures := row.failures + 1);
        }
        ghost var before := sources;
        sources := sources[at.value := row];
        StampedRow(before, sources, at.value);
      }
    }

    /** Stores what a source's poll brought and closes its entry in the report. */
    method Close(r: Source, poll: Poll, status: Candidate -> string, now: int) returns (one: Summary)
      requires UniqueNames(sources) && UniqueFinds(finds)
      modifies this
      ensures UniqueNames(sources) && Stamps(old(sources), sources) && UniqueFinds(finds) && Extends(old(finds), finds)
      ensures forall n :: n != r.name ==> Row(sources, n) == Row(old(sources), n)
      ensures Row(old(sources), r.name).Some? ==>
                Row(sources, r.name).Some? && Polled(Row(old(sources), r.name).value, Row(sources, r.name).value, now, poll)
      ensures one.source == r.name && (one.ok <==> poll.Result?)
      ensures finds == Persisted(old(finds), r.name, poll.Kept(), status, now)
      ensures poll.Result? ==> one.added == |Unseen(old(finds), r.name, poll.found)| && one.added + one.repeated == |poll.found|
      ensures !poll.Result? ==> one.added == 0 && one.repeated == 0
    {
      var added: nat, repeated: nat := 0, 0;
      PersistedFacts(finds, r.name, poll.Kept(), status, now);
      if poll.Result? {
        added, repeated := PersistFinds(r.name, poll.found, status, now);
      } else if poll.HalfStored? {
        var lostAdded, lostRepeated := PersistFinds(r.name, poll.found, status, now);
      }
      RecordPoll(r.name, now, poll);
      one := Summary(r.name, poll.Result?, added, repeated);
    }

    /** Closes one source, with the running totals of the report. */
    method CloseInto(r: Source, poll: Poll, status: Candidate -> string, now: int, report: Report) returns (next: Report)
      requires UniqueNames(sources) && UniqueFinds(finds) && Agrees(report)
      modifies this
      ensures UniqueNames(sources) && UniqueFinds(finds) && Extends(old(finds), finds)
      ensures finds == Persisted(old(finds), r.name, poll.Kept(), status, now)
      ensures next.added == report.added + (if poll.Result? then |Unseen(old(finds), r.name, poll.Kept())| else 0)
      ensures Agrees(next) && next.due == report.due
      ensures FlatMap(SummaryName(), next.summaries) == FlatMap(SummaryName(), report.summaries) + [r.name]
    {
      var one := Close(r, poll, status, now);
      AddAgrees(report, one);
      next := Add(report, one);
    }

    method FailOne(r: Source, status: Candidate -> string, now: int, report: Report) returns (next: Report)
      requires UniqueNames(sources) && UniqueFinds(finds) && Agrees(report)
      modifies this
      ensures UniqueNames(sources) && finds == old(finds)
      ensures Agrees(next) && next.due == report.due && next.added == report.added
      ensures FlatMap(SummaryName(), next.summaries) == FlatMap(SummaryName(), report.summaries) + [r.name]
    {
      next := CloseInto(r, NoResult("No handler registered"), status, now, report);
    }

    /** First half of a pass: sources nobody handles fail at once, the others are
        started. */
    method FailUnhandled(due: seq<Source>, handlers: set<string>, status: Candidate -> string, now: int)
      returns (report: Report, jobs: seq<Source>)
      requires UniqueNames(sources) && UniqueFinds(finds)
      modifies this
      ensures UniqueNames(sources) && finds == old(finds)
      ensures Agrees(report) && report.due == |due| && report.added == 0 && jobs == Filter(Handled(handlers), due)
      ensures FlatMap(SummaryName(), report.summaries) == FlatMap(Name(), Filter(Unhandled(handlers), due))
    {
      var unhandled := Unhandled(handlers);
      report, jobs := Report(|due|, 0, 0, 0, 0, []), [];
      for i := 0 to |due|
        invariant UniqueNames(sources) && finds == old(finds) && Agrees(report) && report.due == |due| && report.added == 0
        invariant jobs == Filter(Handled(handlers), due[..i])
        invariant FlatMap(SummaryName(), report.summaries) == FlatMap(Name(), Filter(unhandled, due[..i]))
      {
        FilterNext(Handled(handlers), due, i);
        FilterNext(unhandled, due, i);
        if due[i].watchType in handlers {
          jobs := jobs + [due[i]];
        } else {
          FlatMapFilterNext(Name(), unhandled, due, i);
          report := FailOne(due[i], status, now, report);
        }
      }
      assert due[..|due|] == due;
    }

    /** Second half: every poll started is closed in turn. */
    method CloseJobs(jobs: seq<Source>, polls: Source -> Poll, status: Candidate -> string, now: int, first: Report)
      returns (report: Report)
      requires UniqueNames(sources) && UniqueFinds(finds) && Agrees(first)
      modifies this
      ensures UniqueNames(sources) && UniqueFinds(finds) && Extends(old(finds), finds)
      ensures Accounts(old(finds), finds, report.added - first.added, jobs, polls, status, now)
      ensures Agrees(report) && report.due == first.due
      ensures FlatMap(SummaryName(), report.summaries) == FlatMap(SummaryName(), first.summaries) + FlatMap(Name(), jobs)
    {
      report := first;
      for j := 0 to |jobs|
        invariant UniqueNames(sources) && UniqueFinds(finds) && Extends(old(finds), finds) && Agrees(report) && report.due == first.due
        invariant FlatMap(SummaryName(), report.summaries) == FlatMap(SummaryName(), first.summaries) + FlatMap(Name(), jobs[..j])
        invariant Accounts(old(finds), finds, report.added - first.added, jobs[..j], polls, status, now)
      {
        FlatMapNext(Name(), jobs, j);
        ghost var between, sofar := finds, report.added;
        report := CloseInto(jobs[j], polls(jobs[j]), status, now, report);
        ExtendsTwice(old(finds), between, finds);
        AccountsNext(old(finds), between, finds, sofar - first.added, report.added - sofar, jobs, j, polls, status, now);
      }
      assert jobs[..|jobs|] == jobs;
    }

    /** `run_one_pass`: reconcile, poll what is due, report. Every due source is
        summarised exactly once. */
    method RunOnePass(seed: seq<Seed>, handlers: set<string>, polls: Source -> Poll, status: Candidate -> string, now: int)
      returns (r: Option<Report>, due: seq<Source>, ghost declared: seq<Source>)
      requires UniqueNames(sources) && UniqueFinds(finds)
      modifies this
      ensures UniqueNames(sources) && UniqueFinds(finds) && Extends(old(finds), finds)
      ensures r.None? <==> !ValidSeed(seed)
      ensures r.Some? ==> ReconciledUpTo(Look(old(sources)), Look(declared), seed, |seed|) && due == Due(declared, now)
      ensures r.Some? ==>
                && Agrees(r.value)
                && r.value.polled + r.value.failed == r.value.due == |r.value.summaries| == |due|
                && multiset(FlatMap(SummaryName(), r.value.summaries)) == multiset(FlatMap(Name(), due))
      ensures r.Some? ==>
                var jobs := Filter(Handled(handlers), due);
                && Accounts(old(finds), finds, r.value.added, jobs, polls, status, now)
                && (NoneHalfStored(jobs, polls) ==> r.value.added == |finds| - |old(finds)|)
    {
      var reconciled := ReconcileWatchlistSeed(seed);
      if reconciled.InvalidWatchlist? {
        return None, [], sources;
      }
      declared := sources;
      due := SelectDueSources(now);
      var first, jobs := FailUnhandled(due, handlers, status, now);
      var report := CloseJobs(jobs, polls, status, now, first);
      SplitPermutes(Name(), Unhandled(handlers), Handled(handlers), due);
      SummariesNamed(report.summaries);
      SourcesNamed(due);
      SameElements(FlatMap(SummaryName(), report.summaries), FlatMap(Name(), due));
      TallyCounts(report.summaries);
      if NoneHalfStored(jobs, polls) {
        NothingStranded(old(finds), jobs, polls, status, now);
      }
      return Some(report), due, declared;
    }

    method PatchRow(e: Seed, r: Source) returns (patched: Source, drift: bool)
      requires r.name == e.name
      ensures patched == Patch(e, r) && (drift <==> !Matches(e, r))
    {
      patched, drift := r, false;
      if patched.target != e.target {
        drift, patched := true, patched.(target := e.target);
      }
      if patched.interval != Seconds(e.cadence) {
        drift, patched := true, patched.(interval := Seconds(e.cadence));
      }
      if patched.watchType != e.watchType {
        drift, patched := true, patched.(watchType := e.watchType);
      }
      if patched.floor != e.floor {
        drift, patched := true, patched.(floor := e.floor);
      }
      if patched.active != e.active {
        drift, patched := true, patched.(active := e.active);
      }
    }
  }

  lemma StampedRow(rows: seq<Source>, rows': seq<Source>, i: nat)
    requires UniqueNames(rows) && i < |rows| == |rows'|
    requires rows' == rows[i := rows'[i]] && rows'[i].name == rows[i].name
    ensures UniqueNames(rows') && Row(rows', rows[i].name) == Some(rows'[i])
    ensures forall n :: n != rows[i].name ==> Row(rows', n) == Row(rows, n)
  {
    assert UniqueNames(rows');
    RowAt(rows', i);
    forall n | n != rows[i].name ensures Row(rows', n) == Row(rows, n) {
      var j := IndexOf(rows, n);
      if j.Some? {
        RowAt(rows, j.value);
        RowAt(rows', j.value);
      } else {
        assert forall k :: 0 <= k < |rows'| ==> rows'[k].name != n;
      }
    }
  }

  /** The totals are those of the summaries. */
  predicate Agrees(r: Report) {
    (r.polled, r.failed, r.added, r.repeated) == Tally(r.summaries)
  }

  // ----- one pass is enough -----

  lemma ReconciledMatches(e: Seed, row: Option<Source>)
    requires row.Some? ==> row.value.name == e.name
    ensures Matches(e, Reconciled(e, row))
    ensures row.Some? && Matches(e, row.value) ==> Reconciled(e, row) == row.value
  {
  }

  /** After a pass every declared source has a matching row that kept its polling
      state, and rows of other names are as they were. */
  lemma PassMatchesSeed(before: seq<Source>, after: seq<Source>, seed: seq<Seed>, e: Seed)
    requires ReconciledUpTo(Look(before), Look(after), seed, |seed|) && e in seed
    ensures Row(after, e.name).Some? && Matches(e, Row(after, e.name).value)
    ensures Row(before, e.name).Some? ==>
              var was, now := Row(before, e.name).value, Row(after, e.name).value;
              && now.lastPolled == was.lastPolled && now.status == was.status && now.error == was.error
              && now.failures == was.failures && now.etag == was.etag && now.lastModified == was.lastModified
  {
    var k :| 0 <= k < |seed| && seed[k] == e;
    assert RowDone(Look(before), Look(after), seed[k]);
    ReconciledMatches(e, Row(before, e.name));
  }

  /** A second pass over the same watchlist counts (0, 0) and changes no row. */
  lemma PassConverges(before: seq<Source>, after: seq<Source>, again: seq<Source>, seed: seq<Seed>)
    requires ReconciledUpTo(Look(before), Look(after), seed, |seed|) && ReconciledUpTo(Look(after), Look(again), seed, |seed|)
    ensures |Filter(Missing(after), seed)| == 0 && |Filter(Drifted(after), seed)| == 0
    ensures forall name :: Row(again, name) == Row(after, name)
  {
    forall e | e in seed ensures !Missing(after)(e) && !Drifted(after)(e) {
      PassMatchesSeed(before, after, seed, e);
    }
    FilterNone(Missing(after), seed);
    FilterNone(Drifted(after), seed);
    forall name ensures Row(again, name) == Row(after, name) {
      if k :| 0 <= k < |seed| && seed[k].name == name {
        PassMatchesSeed(before, after, seed, seed[k]);
        ReconciledMatches(seed[k], Row(after, name));
        assert RowDone(Look(after), Look(again), seed[k]);
      } else {
        assert !Declared(seed, |seed|, name);
      }
    }
  }
}
