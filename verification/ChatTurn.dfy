/** One chat turn as the sequence of router calls it makes: first answer, cloud
    retry of an unknown answer, retry after grading, the model tool loop and its
    backend fallback. Retrieval text keeps its provenance, so that one can ask
    whether text marked not eligible for the cloud ever travels in a call that
    may be served by a cloud provider. */
module ChatTurn {
  import opened Text
  import AnswerText
  import RO = RouteOrdering
  import MR = ModelResolver
  import RD = RouterDispatch
  import StableSort

  datatype Retrieval = Retrieval(tool: string, query: string, content: string, eligible: bool)

  /** `Note` is any text that does not come from a retrieval: the persona, the
      conversation, tool refusals, the fixed instructions. */
  datatype Message = Note(text: string) | Context(r: Retrieval) | ToolResult(r: Retrieval)

  datatype Decision = Decision(
    answerAllowed: bool, maxModelCalls: int, maxRetrievals: int, maxToolCalls: int, toolLoop: bool,
    retrievalRequired: bool, retrievalTool: Option<string>, allowedTools: seq<string>, providerTools: seq<string>,
    cloudAllowed: bool, serviceMode: bool, policy: string, task: string, forceSecondary: bool)

  datatype RouterCall = RouterCall(messages: seq<Message>, request: RO.Request)

  /** A model's request for a tool; `query` is absent when the arguments have none. */
  datatype ToolCall = ToolCall(name: string, query: Option<string>)

  datatype Reply = Reply(text: string, toolCalls: seq<ToolCall>)

  /** `toUnknown` says whether repairing a poor grade replaces the answer by the sentinel. */
  datatype Grade = Grade(adequate: bool, toUnknown: bool)

  /** Everything the turn cannot know in advance. `reply(n)` answers the turn's
      n-th router call; `servedByCloud(n)` is what the diagnostics say after n;
      `unknown` recognises an answer that is no answer. */
  datatype Oracle = Oracle(
    search: (string, string) -> Retrieval, reply: nat -> Reply, servedByCloud: nat -> bool, unknown: string -> bool,
    grade: (string, Option<Retrieval>) -> Grade, guidance: string -> string, afterRepair: (string, Grade) -> string,
    chunks: seq<string>)

  datatype Outcome = Outcome(content: string, retrieval: Option<Retrieval>, calls: seq<RouterCall>)

  const CALL_LIMIT := "I can't answer this turn because the model call limit has been reached."
  const REFUSAL := "I can't follow instruction-override requests."
  const REDIRECT := "Please complete the guided intake before continuing."
  const RETRY_NOTE := "The local/retrieval answer was not adequate; answer with the cloud model."
  const FINAL_NOTE := "Tool execution is complete."
  const REJECTED := "Tool request rejected."
  const MAX_QUERY: nat := 500
  const RETRIEVAL_TOOLS := {"kb_overview", "reference_search", "workflow_pattern_search", "lesson_concept_search"}

  // ----- shared pieces -----

  predicate Eligible(retrieval: Option<Retrieval>) {
    retrieval.Some? ==> retrieval.value.eligible
  }

  /** A restricted retrieval withdraws the turn's permission to use the cloud. */
  function ForRetrieval(d: Decision, retrieval: Option<Retrieval>): Decision {
    if Eligible(retrieval) then d else d.(cloudAllowed := false)
  }

  function Ask(d: Decision, messages: seq<Message>, tools: bool, eligible: bool): RouterCall {
    RouterCall(messages, RO.Request(d.forceSecondary, d.cloudAllowed, Some(d.policy), Some(d.task), eligible, tools))
  }

  function AskCloudAgain(d: Decision, messages: seq<Message>): RouterCall {
    RouterCall(messages + [Note(RETRY_NOTE)], RO.Request(true, true, Some(d.policy), Some(d.task), true, false))
  }

  /** The retrieval the backend makes on its own, when the decision calls for it. */
  function BackendSearch(d: Decision, o: Oracle, message: string): Option<Retrieval> {
    if !d.retrievalRequired || d.maxRetrievals < 1 then None
    else if d.retrievalTool.None? || d.retrievalTool.value == "" || d.retrievalTool.value !in d.allowedTools then None
    else Some(o.search(message, d.retrievalTool.value))
  }

  predicate ToolAllowed(d: Decision, name: string) {
    name in d.providerTools && name in d.allowedTools
  }

  function Either<T>(a: Option<T>, b: Option<T>): Option<T> {
    if a.Some? then a else b
  }

  // ----- retry and grading -----

  /** `n` counts the turn's router calls so far. */
  function Retry(d: Decision, o: Oracle, content: string, messages: seq<Message>, n: nat): (string, seq<RouterCall>) {
    if !o.unknown(content) || !d.cloudAllowed || o.servedByCloud(n) then (content, [])
    else
      var call := AskCloudAgain(d, messages);
      var text := Strip(o.reply(n).text);
      (if !o.servedByCloud(n + 1) || text == "" then content else text, [call])
  }

  function Repaired(content: string, g: Grade): string {
    if g.toUnknown then AnswerText.UNKNOWN_ANSWER else content
  }

  /** Grade, repair, retry once more, and fall back. */
  function Graded(d: Decision, o: Oracle, content: string, retrieval: Option<Retrieval>, messages: seq<Message>, n: nat): Outcome {
    var g := o.grade(content, retrieval);
    if g.adequate then Outcome(content, retrieval, [])
    else
      var repaired := Repaired(content, g);
      var (again, calls) := Retry(d, o, repaired, messages, n);
      var g' := if again != repaired then o.grade(again, retrieval) else g;
      Outcome(if g'.adequate then again else o.afterRepair(again, g'), retrieval, calls)
  }

  function Guided(o: Oracle, content: string): string {
    if o.unknown(content) then o.guidance(content) else content
  }

  function MaybeGuided(o: Oracle, guided: bool, content: string): string {
    if guided then Guided(o, content) else content
  }

  // ----- the tool loop -----

  /** Python's `calls[:k]`. */
  function Slice<T>(s: seq<T>, k: int): seq<T> {
    if k >= 0 then (if k <= |s| then s[..k] else s)
    else if |s| + k >= 0 then s[..|s| + k] else []
  }

  function Execute(d: Decision, o: Oracle, t: ToolCall): Option<Retrieval> {
    if ToolAllowed(d, t.name) && t.name in RETRIEVAL_TOOLS && t.query.Some? && 1 <= |t.query.value| <= MAX_QUERY
    then Some(o.search(t.query.value, t.name))
    else None
  }

  function ToolMessage(result: Option<Retrieval>): Message {
    if result.Some? then ToolResult(result.value) else Note(REJECTED)
  }

  function ToolMessages(d: Decision, o: Oracle, calls: seq<ToolCall>): seq<Message> {
    if calls == [] then []
    else
      var n := |calls| - 1;
      ToolMessages(d, o, calls[..n]) + [ToolMessage(Execute(d, o, calls[n]))]
  }

  /** The retrieval of the last tool call that made one. */
  function LastRetrieval(d: Decision, o: Oracle, calls: seq<ToolCall>): Option<Retrieval> {
    if calls == [] then None
    else
      var n := |calls| - 1;
      Either(Execute(d, o, calls[n]), LastRetrieval(d, o, calls[..n]))
  }

  /** The backend's own retrieval after the model asked for none; no answer when
      the decision does not require one. */
  function BackendAnswer(d: Decision, o: Oracle, messages: seq<Message>, message: string, n: nat): Option<Outcome> {
    if !d.retrievalRequired || d.retrievalTool.None? || d.retrievalTool.value == "" then None
    else
      var found := BackendSearch(d, o, message);
      if found.None? then None
      else
        var d' := ForRetrieval(d, found);
        Some(Outcome(o.reply(n).text, found, [Ask(d', messages + [Context(found.value)], false, Eligible(found))]))
  }

  function ToolLoop(d: Decision, o: Oracle, messages: seq<Message>, message: string): Outcome {
    if d.maxModelCalls < 2 then Outcome(CALL_LIMIT, None, [])
    else
      var first := Ask(d, messages, exists t :: t in d.providerTools && t in d.allowedTools, true);
      var reply := o.reply(0);
      if reply.toolCalls == [] then
        match BackendAnswer(d, o, messages, message, 1)
        case Some(r) => r.(calls := [first] + r.calls)
        case None => Outcome(reply.text, None, [first])
      else
        var executed := Slice(reply.toolCalls, d.maxToolCalls);
        var retrieval := LastRetrieval(d, o, executed);
        var backend := BackendAnswer(d, o, messages, message, 1);
        if retrieval.None? && backend.Some? then backend.value.(calls := [first] + backend.value.calls)
        else
          var d' := ForRetrieval(d, retrieval);
          var final := Ask(d', messages + ToolMessages(d, o, executed) + [Note(FINAL_NOTE)], false, Eligible(retrieval));
          Outcome(if o.reply(1).toolCalls != [] then AnswerText.UNKNOWN_ANSWER else o.reply(1).text, retrieval, [first, final])
  }

  // ----- the turn -----

  /** Retry an unknown answer, then grade it. */
  function Finished(d: Decision, o: Oracle, answer: string, guided: bool, retrieval: Option<Retrieval>,
                    messages: seq<Message>, n: nat): Outcome
  {
    var (content, retry) := Retry(d, o, answer, messages, n);
    var end := Graded(d, o, MaybeGuided(o, guided, content), retrieval, messages, n + |retry|);
    end.(calls := retry + end.calls)
  }

  function LoopTurn(d: Decision, o: Oracle, base: seq<Message>, message: string): Outcome {
    var loop := ToolLoop(d, o, base, message);
    var end := Finished(d, o, loop.content, false, loop.retrieval, base, |loop.calls|);
    end.(calls := loop.calls + end.calls)
  }

  function BufferedTurn(d: Decision, o: Oracle, base: seq<Message>, message: string): Outcome {
    var retrieval := BackendSearch(d, o, message);
    var d' := ForRetrieval(d, retrieval);
    var messages := if retrieval.Some? then base + [Context(retrieval.value)] else base;
    var end := Finished(d', o, o.reply(0).text, true, retrieval, messages, 1);
    end.(calls := [Ask(d', messages, false, Eligible(retrieval))] + end.calls)
  }

  /** `base` is the persona, the history and the intake; `base` carries no retrieval. */
  function RunTurn(d: Decision, o: Oracle, base: seq<Message>, message: string): Outcome {
    if d.toolLoop then LoopTurn(d, o, base, message) else BufferedTurn(d, o, base, message)
  }

  function Concat(chunks: seq<string>): string {
    if chunks == [] then "" else Concat(chunks[..|chunks| - 1]) + chunks[|chunks| - 1]
  }

  /** The streamed turn: buffered through `RunTurn` whenever retrieval, the service
      mode or the tool loop is involved. */
  function StreamTurn(d: Decision, o: Oracle, base: seq<Message>, message: string): Outcome {
    if d.retrievalRequired || d.serviceMode || d.toolLoop then RunTurn(d, o, base, message)
    else
      var first := Ask(d, base, false, true);
      var content := Concat(o.chunks);
      if Guided(o, content) != content then Outcome(Guided(o, content), None, [first])
      else
        var end := StreamGraded(d, o, content, base);
        end.(calls := [first] + end.calls)
  }

  /** As `Graded`, but a retry is compared with the answer, not with its repair. */
  function StreamGraded(d: Decision, o: Oracle, content: string, messages: seq<Message>): Outcome {
    var g := o.grade(content, None);
    if g.adequate then Outcome(content, None, [])
    else
      var (again, calls) := Retry(d, o, Repaired(content, g), messages, 1);
      var g' := if again != content then o.grade(again, None) else g;
      Outcome(if again != content && g'.adequate then again else o.afterRepair(again, g'), None, calls)
  }

  /** `refused` is a direct attempt to override the instructions. */
  function Turn(d: Decision, o: Oracle, base: seq<Message>, message: string, refused: bool, streamed: bool): seq<RouterCall> {
    if refused || !d.answerAllowed || d.maxModelCalls < 1 then []
    else if streamed then StreamTurn(d, o, base, message).calls
    else RunTurn(d, o, base, message).calls
  }

  // ----- what may not travel to the cloud -----

  predicate Restricted(m: Message) {
    !m.Note? && !m.r.eligible
  }

  predicate Carries(messages: seq<Message>) {
    exists m :: m in messages && Restricted(m)
  }

  predicate Plain(messages: seq<Message>) {
    forall m :: m in messages ==> m.Note?
  }

  /** A call carrying restricted text forbids the cloud one way or the other. */
  predicate Safe(call: RouterCall) {
    Carries(call.messages) ==> !call.request.cloudAllowed || !call.request.contextEligible
  }

  ghost predicate AllSafe(calls: seq<RouterCall>) {
    forall call :: call in calls ==> Safe(call)
  }

  lemma RetrySafe(d: Decision, o: Oracle, content: string, messages: seq<Message>, n: nat)
    requires d.cloudAllowed ==> !Carries(messages)
    ensures AllSafe(Retry(d, o, content, messages, n).1)
  {
    assert d.cloudAllowed ==> !Carries(messages + [Note(RETRY_NOTE)]);
  }

  lemma GradedSafe(d: Decision, o: Oracle, content: string, retrieval: Option<Retrieval>, messages: seq<Message>, n: nat)
    requires d.cloudAllowed ==> !Carries(messages)
    ensures AllSafe(Graded(d, o, content, retrieval, messages, n).calls)
  {
    var g := o.grade(content, retrieval);
    RetrySafe(d, o, Repaired(content, g), messages, n);
  }

  lemma FinishedIs(d: Decision, o: Oracle, answer: string, guided: bool, retrieval: Option<Retrieval>, messages: seq<Message>, n: nat)
    ensures var retry := Retry(d, o, answer, messages, n);
            var end := Graded(d, o, MaybeGuided(o, guided, retry.0), retrieval, messages, n + |retry.1|);
            Finished(d, o, answer, guided, retrieval, messages, n) == end.(calls := retry.1 + end.calls)
  {
  }

  lemma FinishedSafe(d: Decision, o: Oracle, answer: string, guided: bool, retrieval: Option<Retrieval>, messages: seq<Message>, n: nat)
    requires d.cloudAllowed ==> !Carries(messages)
    ensures AllSafe(Finished(d, o, answer, guided, retrieval, messages, n).calls)
  {
    var retry := Retry(d, o, answer, messages, n);
    RetrySafe(d, o, answer, messages, n);
    GradedSafe(d, o, MaybeGuided(o, guided, retry.0), retrieval, messages, n + |retry.1|);
    FinishedIs(d, o, answer, guided, retrieval, messages, n);
    AllSafeConcat(retry.1, Graded(d, o, MaybeGuided(o, guided, retry.0), retrieval, messages, n + |retry.1|).calls);
  }

  lemma BackendSafe(d: Decision, o: Oracle, messages: seq<Message>, message: string, n: nat)
    requires Plain(messages)
    ensures var r := BackendAnswer(d, o, messages, message, n); r.Some? ==> AllSafe(r.value.calls)
  {
  }

  /** Turns that do not run the tool loop never expose restricted text. */
  lemma BufferedSafe(d: Decision, o: Oracle, base: seq<Message>, message: string)
    requires Plain(base) && !d.toolLoop
    ensures AllSafe(RunTurn(d, o, base, message).calls)
  {
    var retrieval := BackendSearch(d, o, message);
    var d' := ForRetrieval(d, retrieval);
    var messages := if retrieval.Some? then base + [Context(retrieval.value)] else base;
    assert d'.cloudAllowed ==> !Carries(messages);
    FinishedSafe(d', o, o.reply(0).text, true, retrieval, messages, 1);
  }

  lemma StreamSafe(d: Decision, o: Oracle, base: seq<Message>, message: string)
    requires Plain(base) && !d.toolLoop
    ensures AllSafe(StreamTurn(d, o, base, message).calls)
  {
    if d.retrievalRequired || d.serviceMode {
      BufferedSafe(d, o, base, message);
    } else {
      RetrySafe(d, o, Repaired(Concat(o.chunks), o.grade(Concat(o.chunks), None)), base, 1);
    }
  }

  // ----- the tool loop exposes text exactly when ... -----

  /** The tool calls of the first answer that are carried out. */
  function Executed(d: Decision, o: Oracle): seq<ToolCall> {
    Slice(o.reply(0).toolCalls, d.maxToolCalls)
  }

  predicate SomeRestricted(d: Decision, o: Oracle, calls: seq<ToolCall>) {
    exists t :: t in calls && Execute(d, o, t).Some? && !Execute(d, o, t).value.eligible
  }

  lemma {:induction false} ToolMessagesCarry(d: Decision, o: Oracle, calls: seq<ToolCall>)
    ensures Carries(ToolMessages(d, o, calls)) <==> SomeRestricted(d, o, calls)
  {
    if calls != [] {
      var n := |calls| - 1;
      ToolMessagesCarry(d, o, calls[..n]);
      var m := ToolMessage(Execute(d, o, calls[n]));
      assert calls == calls[..n] + [calls[n]];
      CarriesConcat(ToolMessages(d, o, calls[..n]), [m]);
      assert Carries([m]) <==> Restricted(m) by {
        assert m in [m];
      }
    }
  }

  lemma CarriesConcat(a: seq<Message>, b: seq<Message>)
    ensures Carries(a + b) <==> Carries(a) || Carries(b)
  {
  }

  /** One answered turn exposes restricted text to the cloud exactly when its tool
      loop retrieved restricted text and then, last, something unrestricted. */
  predicate Exposes(d: Decision, o: Oracle) {
    && d.toolLoop && d.maxModelCalls >= 2 && d.cloudAllowed
    && SomeRestricted(d, o, Executed(d, o))
    && LastRetrieval(d, o, Executed(d, o)).Some? && LastRetrieval(d, o, Executed(d, o)).value.eligible
  }

  lemma {:induction false} RestrictedIsRetrieved(d: Decision, o: Oracle, calls: seq<ToolCall>)
    ensures SomeRestricted(d, o, calls) ==> LastRetrieval(d, o, calls).Some?
  {
    if calls != [] {
      var n := |calls| - 1;
      RestrictedIsRetrieved(d, o, calls[..n]);
      assert calls == calls[..n] + [calls[n]];
    }
  }

  /** The last call of the loop carries the tool messages, and is withdrawn from the
      cloud by the last retrieval alone. */
  lemma FinalCallSafe(d: Decision, o: Oracle, base: seq<Message>)
    requires Plain(base)
    ensures var retrieval := LastRetrieval(d, o, Executed(d, o));
            var texts := base + ToolMessages(d, o, Executed(d, o)) + [Note(FINAL_NOTE)];
            Safe(Ask(ForRetrieval(d, retrieval), texts, false, Eligible(retrieval)))
            <==> !(d.cloudAllowed && SomeRestricted(d, o, Executed(d, o)) && retrieval.Some? && retrieval.value.eligible)
  {
    var executed := Executed(d, o);
    ToolMessagesCarry(d, o, executed);
    RestrictedIsRetrieved(d, o, executed);
    CarriesConcat(base + ToolMessages(d, o, executed), [Note(FINAL_NOTE)]);
    CarriesConcat(base, ToolMessages(d, o, executed));
  }

  lemma LoopExposure(d: Decision, o: Oracle, base: seq<Message>, message: string)
    requires Plain(base) && d.toolLoop
    ensures AllSafe(ToolLoop(d, o, base, message).calls) <==> !Exposes(d, o)
  {
    if d.maxModelCalls >= 2 {
      var executed, retrieval := Executed(d, o), LastRetrieval(d, o, Executed(d, o));
      var first := Ask(d, base, exists t :: t in d.providerTools && t in d.allowedTools, true);
      assert Safe(first);
      BackendSafe(d, o, base, message, 1);
      FinalCallSafe(d, o, base);
      assert o.reply(0).toolCalls == [] ==> executed == [];
      var d' := ForRetrieval(d, retrieval);
      var final := Ask(d', base + ToolMessages(d, o, executed) + [Note(FINAL_NOTE)], false, Eligible(retrieval));
      assert Safe(final) <==> !Exposes(d, o);
      if Exposes(d, o) {
        assert ToolLoop(d, o, base, message).calls == [first, final];
      }
    }
  }

  lemma AllSafeConcat(a: seq<RouterCall>, b: seq<RouterCall>)
    ensures AllSafe(a + b) <==> AllSafe(a) && AllSafe(b)
  {
    if AllSafe(a + b) {
      forall call | call in a || call in b ensures Safe(call) {
        assert call in a + b;
      }
    }
  }

  /** The exact condition, turn by turn. */
  lemma TurnExposesIff(d: Decision, o: Oracle, base: seq<Message>, message: string, streamed: bool)
    requires Plain(base) && d.answerAllowed && d.maxModelCalls >= 1
    ensures AllSafe(Turn(d, o, base, message, false, streamed)) <==> !Exposes(d, o)
  {
    if d.toolLoop {
      var loop := ToolLoop(d, o, base, message);
      LoopExposure(d, o, base, message);
      FinishedSafe(d, o, loop.content, false, loop.retrieval, base, |loop.calls|);
      AllSafeConcat(loop.calls, Finished(d, o, loop.content, false, loop.retrieval, base, |loop.calls|).calls);
    } else {
      BufferedSafe(d, o, base, message);
      StreamSafe(d, o, base, message);
    }
  }

  // ----- which decisions are safe whatever happens -----

  predicate UsableSearch(d: Decision, name: string) {
    ToolAllowed(d, name) && name in RETRIEVAL_TOOLS
  }

  /** A tool loop that may use the cloud, may search, and may search twice. */
  predicate CanExpose(d: Decision) {
    && d.toolLoop && d.maxModelCalls >= 2 && d.cloudAllowed
    && (d.maxToolCalls >= 2 || d.maxToolCalls < 0)
    && exists name :: name in d.providerTools && UsableSearch(d, name)
  }

  lemma OneToolCallIsSafe(d: Decision, o: Oracle)
    requires 0 <= d.maxToolCalls <= 1
    ensures !Exposes(d, o)
  {
    var executed := Executed(d, o);
    if |executed| == 1 {
      assert executed == [executed[0]] && executed[..0] == [];
    } else {
      assert executed == [];
    }
  }

  lemma ExposesNeedsSearch(d: Decision, o: Oracle)
    requires Exposes(d, o)
    ensures CanExpose(d)
  {
    if 0 <= d.maxToolCalls <= 1 {
      OneToolCallIsSafe(d, o);
    }
    var t :| t in Executed(d, o) && Execute(d, o, t).Some? && !Execute(d, o, t).value.eligible;
    assert UsableSearch(d, t.name);
  }

  /** A run that exposes: the model searches twice, and only the first search is
      restricted; requests past the limit follow. */
  function Leak(name: string, extra: nat): Oracle {
    Oracle((query, tool) => Retrieval(tool, query, query, query == "public"),
           k => Reply("", if k == 0 then [ToolCall(name, Some("secret")), ToolCall(name, Some("public"))] + Pads(extra) else []),
           k => false, text => false, (text, r) => Grade(true, false), text => text, (text, g) => text, [])
  }

  function Pads(n: nat): seq<ToolCall> {
    seq(n, _ => ToolCall("", None))
  }

  lemma LeakExposes(d: Decision) returns (o: Oracle)
    requires CanExpose(d)
    ensures Exposes(d, o)
  {
    var name :| name in d.providerTools && UsableSearch(d, name);
    var extra: nat := if d.maxToolCalls < 0 then -d.maxToolCalls else 0;
    o := Leak(name, extra);
    var a, b := ToolCall(name, Some("secret")), ToolCall(name, Some("public"));
    assert o.reply(0).toolCalls == [a, b] + Pads(extra);
    assert Executed(d, o) == [a, b];
    assert "secret"[0] != "public"[0];
    assert a in [a, b] && [a, b][..1] == [a] && Execute(d, o, a).Some? && Execute(d, o, b).Some?;
  }

  /** A decision keeps restricted text from the cloud in every run, streamed or
      not, if and only if it cannot search twice in a tool loop with the cloud
      allowed. */
  lemma SafeWhateverHappensIff(d: Decision, base: seq<Message>, message: string, streamed: bool)
    requires Plain(base) && d.answerAllowed && d.maxModelCalls >= 1
    ensures (forall o: Oracle :: AllSafe(Turn(d, o, base, message, false, streamed))) <==> !CanExpose(d)
  {
    forall o: Oracle ensures AllSafe(Turn(d, o, base, message, false, streamed)) <==> !Exposes(d, o) {
      TurnExposesIff(d, o, base, message, streamed);
    }
    forall o: Oracle ensures Exposes(d, o) ==> CanExpose(d) {
      if Exposes(d, o) {
        ExposesNeedsSearch(d, o);
      }
    }
    if CanExpose(d) {
      var o := LeakExposes(d);
    }
  }

  // ----- down to the route that is dispatched -----

  /** A safe call with restricted text is neither offered nor dispatched to a cloud
      route, whatever is configured, synthesized or failing at that moment. */
  lemma SafeCallStaysLocal(cfg: RO.Config, st: RO.State, call: RouterCall,
                           outcome: RO.Route -> RD.Try, piece: RO.Route -> RD.Piece, degraded: string)
    requires Safe(call) && Carries(call.messages)
    ensures StaysLocal(cfg, st, call, outcome, piece, degraded)
  {
    RO.NoCloudWhenIneligible(cfg, st, call.request);
    RD.LocalTurnStaysLocal(cfg, st, call.request, outcome, piece, degraded);
  }

  ghost predicate StaysLocal(cfg: RO.Config, st: RO.State, call: RouterCall,
                             outcome: RO.Route -> RD.Try, piece: RO.Route -> RD.Piece, degraded: string)
  {
    var ordered := RO.OrderedRoutes(cfg, st, call.request);
    && (forall r :: r in ordered ==> !r.IsCloud())
    && (forall r :: r in RD.Dispatched(outcome, ordered) ==> !r.IsCloud())
    && (forall r :: r in RD.Spoken(piece, degraded, ordered).asked ==> !r.IsCloud())
  }

  lemma DecisionKeepsSafe(d: Decision, o: Oracle, base: seq<Message>, message: string, refused: bool, streamed: bool)
    requires Plain(base)
    ensures !CanExpose(d) ==> AllSafe(Turn(d, o, base, message, refused, streamed))
  {
    if !refused && d.answerAllowed && d.maxModelCalls >= 1 {
      TurnExposesIff(d, o, base, message, streamed);
      if Exposes(d, o) {
        ExposesNeedsSearch(d, o);
      }
    }
  }

  /** Over the whole turn and every router state each call may meet. */
  lemma RestrictedTextStaysLocal(
    d: Decision, o: Oracle, base: seq<Message>, message: string, refused: bool, streamed: bool, call: RouterCall,
    cfg: RO.Config, st: RO.State, outcome: RO.Route -> RD.Try, piece: RO.Route -> RD.Piece, degraded: string)
    requires Plain(base) && !CanExpose(d)
    requires call in Turn(d, o, base, message, refused, streamed) && Carries(call.messages)
    ensures StaysLocal(cfg, st, call, outcome, piece, degraded)
  {
    DecisionKeepsSafe(d, o, base, message, refused, streamed);
    SafeCallStaysLocal(cfg, st, call, outcome, piece, degraded);
  }

  function PlainCloudRoute(policy: string): RO.Route {
    RO.Route("cloud", "m", "low_cost", {policy}, [], [], 0, true, true, false, "active", true, [], "none", "", "", false)
  }

  function OneRoute(r: RO.Route): RO.Config {
    RO.Config([r], RO.BestValue, false, 1, RO.TransportMap("", map[]),
              task => MR.Lane("chat", [], 0, None, None, None, None, true, 0, 0, 0, 1), [], false,
              false, 0, 0, provider => 1.0, 0)
  }

  const FRESH := RO.State(map[], map[], {}, map[], false, map[])

  lemma PlainRoutePasses(policy: string, req: RO.Request)
    requires req.cloudAllowed && req.contextEligible && !req.requireTools && req.policy == Some(policy)
    ensures RO.BlockedReason(OneRoute(PlainCloudRoute(policy)), FRESH, req, PlainCloudRoute(policy)).None?
  {
    var r := PlainCloudRoute(policy);
    assert Strip("m") == "m" && Lower("m") == "m";
    SplitNone("m", ':');
    assert !r.IsFreeTier();
    assert RO.FirstNamed([r], "cloud") == Some(r);
  }

  /** And the condition is sharp: a call that is not safe is served by a cloud route
      when that is what is configured. */
  lemma UnsafeCallReachesCloud(call: RouterCall) returns (cfg: RO.Config)
    requires !Safe(call) && !call.request.requireTools && call.request.policy.Some?
    ensures var served := RD.Served(r => RD.Answers, RO.OrderedRoutes(cfg, FRESH, call.request));
            served.Some? && served.value.IsCloud()
  {
    var r := PlainCloudRoute(call.request.policy.value);
    cfg := OneRoute(r);
    PlainRoutePasses(call.request.policy.value, call.request);
    RO.NothingLostNothingInvented(cfg, FRESH, call.request);
    var passing, ordered := StableSort.Filter(RO.Gate(cfg, FRESH, call.request), cfg.routes), RO.OrderedRoutes(cfg, FRESH, call.request);
    StableSort.SameElements(ordered, passing);
    assert r in passing && ordered[0] in passing;
  }

  // ----- the orchestrator -----

  class ChatTurnOrchestrator {
    const o: Oracle
    var calls: seq<RouterCall>

    constructor (o: Oracle)
      ensures this.o == o && calls == []
    {
      this.o := o;
      calls := [];
    }

    method Chat(call: RouterCall) returns (reply: Reply)
      modifies this
      ensures calls == old(calls) + [call] && reply == o.reply(|old(calls)|)
    {
      reply := o.reply(|calls|);
      calls := calls + [call];
    }

    method Retrieve(d: Decision, message: string) returns (r: Option<Retrieval>)
      ensures r == BackendSearch(d, o, message)
    {
      if !d.retrievalRequired || d.maxRetrievals < 1 {
        return None;
      }
      if d.retrievalTool.None? || d.retrievalTool.value == "" || d.retrievalTool.value !in d.allowedTools {
        return None;
      }
      return Some(o.search(message, d.retrievalTool.value));
    }

    method RetryCloudIfUnknown(d: Decision, content: string, messages: seq<Message>) returns (text: string)
      modifies this
      ensures text == Retry(d, o, content, messages, |old(calls)|).0
      ensures calls == old(calls) + Retry(d, o, content, messages, |old(calls)|).1
    {
      if !o.unknown(content) || !d.cloudAllowed || o.servedByCloud(|calls|) {
        return content;
      }
      var reply := Chat(AskCloudAgain(d, messages));
      if !o.servedByCloud(|calls|) || Strip(reply.text) == "" {
        return content;
      }
      return Strip(reply.text);
    }

    method GradeAndRepair(d: Decision, content: string, retrieval: Option<Retrieval>, messages: seq<Message>) returns (text: string)
      modifies this
      ensures var r := Graded(d, o, content, retrieval, messages, |old(calls)|);
              text == r.content && calls == old(calls) + r.calls
    {
      var grade := o.grade(content, retrieval);
      if grade.adequate {
        return content;
      }
      var repaired := if grade.toUnknown then AnswerText.UNKNOWN_ANSWER else content;
      text := RetryCloudIfUnknown(d, repaired, messages);
      if text != repaired {
        grade := o.grade(text, retrieval);
      }
      if !grade.adequate {
        text := o.afterRepair(text, grade);
      }
    }

    method BackendAnswerAfterMiss(d: Decision, messages: seq<Message>, message: string) returns (r: Option<(string, Option<Retrieval>)>)
      modifies this
      ensures var b := BackendAnswer(d, o, messages, message, |old(calls)|);
              && (r.Some? <==> b.Some?)
              && (b.None? ==> calls == old(calls))
              && (b.Some? ==> r.value == (b.value.content, b.value.retrieval) && calls == old(calls) + b.value.calls)
    {
      if !d.retrievalRequired || d.retrievalTool.None? || d.retrievalTool.value == "" {
        return None;
      }
      var found := Retrieve(d, message);
      if found.None? {
        return None;
      }
      var reply := Chat(Ask(ForRetrieval(d, found), messages + [Context(found.value)], false, Eligible(found)));
      return Some((reply.text, found));
    }

    /** Carries out the tool calls in order: each result becomes a message, and the
        latest retrieval stands for all of them. */
    method ExecuteToolCalls(d: Decision, requested: seq<ToolCall>) returns (messages: seq<Message>, retrieval: Option<Retrieval>)
      ensures messages == ToolMessages(d, o, requested) && retrieval == LastRetrieval(d, o, requested)
    {
      messages, retrieval := [], None;
      for i := 0 to |requested|
        invariant messages == ToolMessages(d, o, requested[..i]) && retrieval == LastRetrieval(d, o, requested[..i])
      {
        assert requested[..i + 1][..i] == requested[..i];
        var found := Execute(d, o, requested[i]);
        retrieval := if found.Some? then found else retrieval;
        messages := messages + [ToolMessage(found)];
      }
      assert requested[..|requested|] == requested;
    }

    method RunModelToolLoop(d: Decision, messages: seq<Message>, message: string) returns (content: string, retrieval: Option<Retrieval>)
      requires calls == []
      modifies this
      ensures Outcome(content, retrieval, calls) == ToolLoop(d, o, messages, message)
    {
      if d.maxModelCalls < 2 {
        return CALL_LIMIT, None;
      }
      var reply := Chat(Ask(d, messages, exists t :: t in d.providerTools && t in d.allowedTools, true));
      if reply.toolCalls == [] {
        var backend := BackendAnswerAfterMiss(d, messages, message);
        if backend.Some? {
          return backend.value.0, backend.value.1;
        }
        return reply.text, None;
      }
      var toolMessages;
      toolMessages, retrieval := ExecuteToolCalls(d, Slice(reply.toolCalls, d.maxToolCalls));
      if retrieval.None? {
        var backend := BackendAnswerAfterMiss(d, messages, message);
        if backend.Some? {
          return backend.value.0, backend.value.1;
        }
      }
      var final := Chat(Ask(ForRetrieval(d, retrieval), messages + toolMessages + [Note(FINAL_NOTE)], false, Eligible(retrieval)));
      content := if final.toolCalls != [] then AnswerText.UNKNOWN_ANSWER else final.text;
    }

    method Finish(d: Decision, answer: string, guided: bool, retrieval: Option<Retrieval>, messages: seq<Message>) returns (content: string)
      modifies this
      ensures var r := Finished(d, o, answer, guided, retrieval, messages, |old(calls)|);
              content == r.content && calls == old(calls) + r.calls
    {
      ghost var n := |calls|;
      ghost var retry := Retry(d, o, answer, messages, n);
      FinishedIs(d, o, answer, guided, retrieval, messages, n);
      content := RetryCloudIfUnknown(d, answer, messages);
      content := MaybeGuided(o, guided, content);
      assert |calls| == n + |retry.1|;
      content := GradeAndRepair(d, content, retrieval, messages);
    }

    method RunBuffered(d: Decision, base: seq<Message>, message: string) returns (content: string)
      requires calls == []
      modifies this
      ensures content == BufferedTurn(d, o, base, message).content && calls == BufferedTurn(d, o, base, message).calls
    {
      var retrieval := Retrieve(d, message);
      var d' := ForRetrieval(d, retrieval);
      var messages := base;
      if retrieval.Some? {
        messages := messages + [Context(retrieval.value)];
      }
      var reply := Chat(Ask(d', messages, false, Eligible(retrieval)));
      content := Finish(d', reply.text, true, retrieval, messages);
    }

    /** `run`: the router calls made are exactly the specification's, and so carry
        no restricted text towards the cloud unless the decision allows it. */
    method Run(d: Decision, base: seq<Message>, message: string, refused: bool) returns (content: string)
      requires calls == [] && Plain(base)
      modifies this
      ensures calls == Turn(d, o, base, message, refused, false)
      ensures !refused && d.answerAllowed && d.maxModelCalls >= 1 ==> content == RunTurn(d, o, base, message).content
      ensures refused ==> content == REFUSAL
      ensures !refused && !d.answerAllowed ==> content == REDIRECT
      ensures !refused && d.answerAllowed && d.maxModelCalls < 1 ==> content == CALL_LIMIT
      ensures !CanExpose(d) ==> AllSafe(calls)
    {
      DecisionKeepsSafe(d, o, base, message, refused, false);
      if refused {
        return REFUSAL;
      }
      if !d.answerAllowed {
        return REDIRECT;
      }
      if d.maxModelCalls < 1 {
        return CALL_LIMIT;
      }
      if d.toolLoop {
        var retrieval;
        content, retrieval := RunModelToolLoop(d, base, message);
        content := Finish(d, content, false, retrieval, base);
      } else {
        content := RunBuffered(d, base, message);
      }
    }
  }
}
