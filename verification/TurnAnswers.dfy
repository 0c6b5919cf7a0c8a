/** Which text a turn answers with: the reply it takes first, the cloud's reply that may
    replace it, the guidance, and how it is graded. */
module TurnAnswers {
  import opened Text
  import AnswerText
  import RO = RouteOrdering
  import opened ChatTurn

  // ----- the cloud's second opinion -----

  /** The cloud is asked again: no answer so far, the cloud allowed and not used yet. */
  ghost predicate AsksAgain(d: Decision, o: Oracle, content: string, n: nat) {
    o.unknown(content) && d.cloudAllowed && !o.servedByCloud(n)
  }

  function SaidNext(o: Oracle, n: nat): string {
    Strip(o.reply(n).text)
  }

  /** And its reply is taken: a cloud route gave it, and it is not blank. */
  ghost predicate Rescues(d: Decision, o: Oracle, content: string, n: nat) {
    AsksAgain(d, o, content, n) && o.servedByCloud(n + 1) && SaidNext(o, n) != ""
  }

  ghost function Calls(b: bool): nat {
    if b then 1 else 0
  }

  /** The second call insists on the cloud, and carries the conversation and a note. */
  ghost predicate IsSecondOpinion(d: Decision, call: RouterCall, messages: seq<Message>) {
    && call.messages == messages + [Note(RETRY_NOTE)]
    && call.request.forceSecondary && call.request.cloudAllowed && call.request.contextEligible && !call.request.requireTools
    && call.request.policy == Some(d.policy) && call.request.task == Some(d.task)
  }

  /** The answer is the cloud's stripped reply exactly when there was no answer yet, the
      cloud was allowed and not used, and it served a reply that is not blank; the old
      answer otherwise. */
  lemma RetryAnswers(d: Decision, o: Oracle, content: string, messages: seq<Message>, n: nat)
    ensures var (text, calls) := Retry(d, o, content, messages, n);
            && (Rescues(d, o, content, n) ==> text == SaidNext(o, n))
            && (!Rescues(d, o, content, n) ==> text == content)
            && |calls| == Calls(AsksAgain(d, o, content, n)) && forall call :: call in calls ==> IsSecondOpinion(d, call, messages)
  {
  }

  // ----- how it is graded -----

  /** The unknown answer is the answer, or the sentinel when the grade says so. */
  ghost function Kept(answer: string, g: Grade): string {
    if g.toUnknown then AnswerText.UNKNOWN_ANSWER else answer
  }

  /** The turn's last word on an answer: the answer itself when its grade is adequate;
      else a second opinion that differs and is graded in turn; else what is left,
      repaired with the grade it got. */
  ghost predicate LastWord(d: Decision, o: Oracle, answer: string, retrieval: Option<Retrieval>, n: nat, content: string) {
    var g := o.grade(answer, retrieval);
    if g.adequate then content == answer
    else
      var kept := Kept(answer, g);
      if Rescues(d, o, kept, n) && SaidNext(o, n) != kept then
        var said := SaidNext(o, n);
        var g' := o.grade(said, retrieval);
        content == if g'.adequate then said else o.afterRepair(said, g')
      else content == o.afterRepair(kept, g)
  }

  lemma GradedHasLastWord(d: Decision, o: Oracle, answer: string, retrieval: Option<Retrieval>, messages: seq<Message>, n: nat)
    ensures LastWord(d, o, answer, retrieval, n, Graded(d, o, answer, retrieval, messages, n).content)
  {
    var g := o.grade(answer, retrieval);
    if !g.adequate {
      RetryAnswers(d, o, Kept(answer, g), messages, n);
    }
  }

  /** From the first answer to the last word: a second opinion if there is none, the
      guidance if there is still none, and the grade. */
  ghost predicate Settled(d: Decision, o: Oracle, answer: string, guided: bool, retrieval: Option<Retrieval>, n: nat, content: string) {
    var opinion := if Rescues(d, o, answer, n) then SaidNext(o, n) else answer;
    var shown := if guided && o.unknown(opinion) then o.guidance(opinion) else opinion;
    LastWord(d, o, shown, retrieval, n + Calls(AsksAgain(d, o, answer, n)), content)
  }

  lemma FinishedIsSettled(d: Decision, o: Oracle, answer: string, guided: bool, retrieval: Option<Retrieval>, messages: seq<Message>, n: nat)
    ensures Settled(d, o, answer, guided, retrieval, n, Finished(d, o, answer, guided, retrieval, messages, n).content)
  {
    var retry := Retry(d, o, answer, messages, n);
    RetryAnswers(d, o, answer, messages, n);
    FinishedIs(d, o, answer, guided, retrieval, messages, n);
    GradedHasLastWord(d, o, MaybeGuided(o, guided, retry.0), retrieval, messages, n + |retry.1|);
  }

  // ----- the first answer -----

  /** The backend searches by itself: the decision requires it, names a tool of the
      mode, and leaves room for a retrieval. */
  ghost predicate BackendMay(d: Decision) {
    && d.retrievalRequired && d.maxRetrievals >= 1
    && d.retrievalTool.Some? && d.retrievalTool.value != "" && d.retrievalTool.value in d.allowedTools
  }

  ghost predicate BackendFinds(d: Decision, o: Oracle, message: string, retrieval: Option<Retrieval>) {
    if BackendMay(d) then retrieval == Some(o.search(message, d.retrievalTool.value)) else retrieval.None?
  }

  /** The request of an ordinary call: with the decision's own settings, and with the
      cloud only while nothing restricted has been retrieved. */
  ghost predicate IsOrdinary(d: Decision, call: RouterCall, retrieval: Option<Retrieval>, tools: bool) {
    var restricted := retrieval.Some? && !retrieval.value.eligible;
    && call.request.forceSecondary == d.forceSecondary && call.request.requireTools == tools
    && call.request.policy == Some(d.policy) && call.request.task == Some(d.task)
    && (call.request.cloudAllowed <==> d.cloudAllowed && !restricted) && (call.request.contextEligible <==> !restricted)
  }

  lemma BackendSearchFinds(d: Decision, o: Oracle, message: string)
    ensures BackendFinds(d, o, message, BackendSearch(d, o, message))
  {
  }

  /** Without the tool loop the model is asked once, with what the backend found; the
      reply is settled under the decision that the retrieval leaves. */
  lemma BufferedAnswers(d: Decision, o: Oracle, base: seq<Message>, message: string)
    requires !d.toolLoop
    ensures var r := RunTurn(d, o, base, message);
            && BackendFinds(d, o, message, r.retrieval) && r.calls != []
            && r.calls[0].messages == base + (if r.retrieval.Some? then [Context(r.retrieval.value)] else [])
            && IsOrdinary(d, r.calls[0], r.retrieval, false)
            && exists d' :: Narrowed(d, r.retrieval, d') && Settled(d', o, o.reply(0).text, true, r.retrieval, 1, r.content)
  {
    BackendSearchFinds(d, o, message);
    var retrieval := BackendSearch(d, o, message);
    var d' := ForRetrieval(d, retrieval);
    var messages := if retrieval.Some? then base + [Context(retrieval.value)] else base;
    assert base + [] == base;
    assert Narrowed(d, retrieval, d');
    FinishedIsSettled(d', o, o.reply(0).text, true, retrieval, messages, 1);
  }

  /** The decision after a retrieval: restricted text takes the cloud away. */
  ghost predicate Narrowed(d: Decision, retrieval: Option<Retrieval>, d': Decision) {
    d' == d.(cloudAllowed := d'.cloudAllowed) && (d'.cloudAllowed <==> d.cloudAllowed && (retrieval.Some? ==> retrieval.value.eligible))
  }

  // ----- the tool loop -----

  /** A tool call that retrieves: a retrieval tool, offered and allowed, with a query of
      one to five hundred characters. */
  ghost predicate Retrieves(d: Decision, t: ToolCall) {
    && t.name in d.providerTools && t.name in d.allowedTools
    && (t.name == "kb_overview" || t.name == "reference_search" || t.name == "workflow_pattern_search" || t.name == "lesson_concept_search")
    && t.query.Some? && 1 <= |t.query.value| <= 500
  }

  /** What the last retrieving call of the list brought, if one of them retrieves. */
  ghost predicate LastFound(d: Decision, o: Oracle, calls: seq<ToolCall>, retrieval: Option<Retrieval>) {
    || (retrieval.None? && forall i :: 0 <= i < |calls| ==> !Retrieves(d, calls[i]))
    || exists i :: 0 <= i < |calls| && Retrieves(d, calls[i]) && retrieval == Some(o.search(calls[i].query.value, calls[i].name))
         && forall j :: i < j < |calls| ==> !Retrieves(d, calls[j])
  }

  lemma ExecuteRetrieves(d: Decision, o: Oracle, t: ToolCall)
    ensures Execute(d, o, t) == if Retrieves(d, t) then Some(o.search(t.query.value, t.name)) else None
  {
  }

  lemma {:induction false} LastRetrievalIsLastFound(d: Decision, o: Oracle, calls: seq<ToolCall>)
    ensures LastFound(d, o, calls, LastRetrieval(d, o, calls))
  {
    if calls != [] {
      var n := |calls| - 1;
      LastRetrievalIsLastFound(d, o, calls[..n]);
      ExecuteRetrieves(d, o, calls[n]);
      if !Retrieves(d, calls[n]) && LastRetrieval(d, o, calls[..n]).Some? {
        var i :| 0 <= i < n && Retrieves(d, calls[..n][i])
          && LastRetrieval(d, o, calls[..n]) == Some(o.search(calls[..n][i].query.value, calls[..n][i].name))
          && forall j :: i < j < n ==> !Retrieves(d, calls[..n][j]);
        assert calls[i] == calls[..n][i];
        assert forall j :: i < j < n ==> calls[j] == calls[..n][j];
      }
    }
  }

  /** The first calls of the reply, as many as a turn may carry out; a negative limit
      drops that many from the end. */
  ghost predicate CarriedOut(requested: seq<ToolCall>, limit: int, done: seq<ToolCall>) {
    && done <= requested
    && (limit >= 0 ==> |done| == if limit < |requested| then limit else |requested|)
    && (limit < 0 ==> |done| == if |requested| + limit > 0 then |requested| + limit else 0)
  }

  /** The loop's answer, the retrieval behind it and the number of its calls. */
  ghost predicate LoopAnswer(d: Decision, o: Oracle, message: string, done: seq<ToolCall>,
                             answer: string, retrieval: Option<Retrieval>, n: nat)
  {
    if d.maxModelCalls < 2 then answer == CALL_LIMIT && retrieval.None? && n == 0
    else if (exists t :: t in done && Retrieves(d, t)) then
      n == 2 && LastFound(d, o, done, retrieval) && FinalAnswer(o, answer)
    else if BackendMay(d) then
      n == 2 && answer == o.reply(1).text && retrieval == Some(o.search(message, d.retrievalTool.value))
    else if o.reply(0).toolCalls == [] then
      n == 1 && answer == o.reply(0).text && retrieval.None?
    else n == 2 && retrieval.None? && FinalAnswer(o, answer)
  }

  /** The closing reply, unless it asks for tools once more. */
  ghost predicate FinalAnswer(o: Oracle, answer: string) {
    answer == if o.reply(1).toolCalls == [] then o.reply(1).text else AnswerText.UNKNOWN_ANSWER
  }

  lemma SliceIsCarriedOut(requested: seq<ToolCall>, limit: int)
    ensures CarriedOut(requested, limit, Slice(requested, limit))
  {
  }

  lemma ToolLoopAnswers(d: Decision, o: Oracle, base: seq<Message>, message: string)
    ensures var loop := ToolLoop(d, o, base, message);
            exists done :: CarriedOut(o.reply(0).toolCalls, d.maxToolCalls, done)
              && LoopAnswer(d, o, message, done, loop.content, loop.retrieval, |loop.calls|)
  {
    var requested, loop := o.reply(0).toolCalls, ToolLoop(d, o, base, message);
    var done := Slice(requested, d.maxToolCalls);
    SliceIsCarriedOut(requested, d.maxToolCalls);
    LastRetrievalIsLastFound(d, o, done);
    BackendSearchFinds(d, o, message);
    RetrievesIffFound(d, o, done);
    assert LoopAnswer(d, o, message, done, loop.content, loop.retrieval, |loop.calls|);
  }

  lemma RetrievesIffFound(d: Decision, o: Oracle, calls: seq<ToolCall>)
    ensures LastRetrieval(d, o, calls).Some? <==> exists t :: t in calls && Retrieves(d, t)
  {
    LastRetrievalIsLastFound(d, o, calls);
  }

  /** With the tool loop the answer is the loop's: the backend's reply when the model
      retrieved nothing and the decision requires it, the model's own otherwise. It is
      settled without guidance, under the decision as it was. */
  lemma LoopAnswers(d: Decision, o: Oracle, base: seq<Message>, message: string)
    requires d.toolLoop
    ensures var r := RunTurn(d, o, base, message);
            exists done, answer, n: nat ::
              && CarriedOut(o.reply(0).toolCalls, d.maxToolCalls, done) && LoopAnswer(d, o, message, done, answer, r.retrieval, n)
              && Settled(d, o, answer, false, r.retrieval, n, r.content)
  {
    var loop := ToolLoop(d, o, base, message);
    ToolLoopAnswers(d, o, base, message);
    var done :| CarriedOut(o.reply(0).toolCalls, d.maxToolCalls, done)
      && LoopAnswer(d, o, message, done, loop.content, loop.retrieval, |loop.calls|);
    FinishedIsSettled(d, o, loop.content, false, loop.retrieval, base, |loop.calls|);
    assert LoopAnswer(d, o, message, done, loop.content, RunTurn(d, o, base, message).retrieval, |loop.calls|);
  }

  /** What the results of the carried-out calls look like to the model. */
  ghost predicate IsResult(d: Decision, o: Oracle, t: ToolCall, m: Message) {
    if Retrieves(d, t) then m == ToolResult(o.search(t.query.value, t.name)) else m == Note(REJECTED)
  }

  lemma {:induction false} ResultsInOrder(d: Decision, o: Oracle, done: seq<ToolCall>)
    ensures |ToolMessages(d, o, done)| == |done| && forall i :: 0 <= i < |done| ==> IsResult(d, o, done[i], ToolMessages(d, o, done)[i])
  {
    if done != [] {
      var n := |done| - 1;
      ResultsInOrder(d, o, done[..n]);
      ExecuteRetrieves(d, o, done[n]);
    }
  }

  /** The loop's last call: the conversation with what the backend found, or with the
      result of every carried-out call and a closing note. */
  ghost predicate IsClosing(d: Decision, o: Oracle, base: seq<Message>, retrieval: Option<Retrieval>, call: RouterCall) {
    && IsOrdinary(d, call, retrieval, false)
    && ((retrieval.Some? && call.messages == base + [Context(retrieval.value)])
        || exists done, results :: CarriesResults(d, o, done, results) && call.messages == base + results + [Note(FINAL_NOTE)])
  }

  ghost predicate CarriesResults(d: Decision, o: Oracle, done: seq<ToolCall>, results: seq<Message>) {
    && CarriedOut(o.reply(0).toolCalls, d.maxToolCalls, done) && |results| == |done|
    && forall i :: 0 <= i < |done| ==> IsResult(d, o, done[i], results[i])
  }

  lemma BackendAsks(d: Decision, o: Oracle, base: seq<Message>, message: string)
    ensures var r := BackendAnswer(d, o, base, message, 1);
            r.Some? ==> |r.value.calls| == 1 && IsClosing(d, o, base, r.value.retrieval, r.value.calls[0])
  {
  }

  lemma FinalAsks(d: Decision, o: Oracle, base: seq<Message>)
    ensures var done := Slice(o.reply(0).toolCalls, d.maxToolCalls);
            var retrieval := LastRetrieval(d, o, done);
            IsClosing(d, o, base, retrieval,
                      Ask(ForRetrieval(d, retrieval), base + ToolMessages(d, o, done) + [Note(FINAL_NOTE)], false, Eligible(retrieval)))
  {
    var done := Slice(o.reply(0).toolCalls, d.maxToolCalls);
    SliceIsCarriedOut(o.reply(0).toolCalls, d.maxToolCalls);
    ResultsInOrder(d, o, done);
    assert CarriesResults(d, o, done, ToolMessages(d, o, done));
  }

  /** The calls of the loop: first the conversation, with tools asked for exactly when
      one is offered and allowed; then, if the model is not left at its word, the
      closing one. */
  lemma LoopAsks(d: Decision, o: Oracle, base: seq<Message>, message: string)
    requires d.maxModelCalls >= 2
    ensures var loop := ToolLoop(d, o, base, message);
            && 1 <= |loop.calls| <= 2 && loop.calls[0].messages == base
            && IsOrdinary(d, loop.calls[0], None, exists t :: t in d.providerTools && t in d.allowedTools)
            && (|loop.calls| == 2 ==> IsClosing(d, o, base, loop.retrieval, loop.calls[1]))
  {
    BackendAsks(d, o, base, message);
    FinalAsks(d, o, base);
  }

  // ----- the streamed turn -----

  /** A streamed answer that is none is replaced by the guidance and not graded; any
      other is graded, and a second opinion counts when it differs from what was shown. */
  lemma StreamedAnswers(d: Decision, o: Oracle, base: seq<Message>, message: string)
    requires !d.retrievalRequired && !d.serviceMode && !d.toolLoop
    ensures var content, final := Concat(o.chunks), StreamTurn(d, o, base, message).content;
            var g := o.grade(content, None);
            if o.unknown(content) && o.guidance(content) != content then final == o.guidance(content)
            else if g.adequate then final == content
            else
              var kept := Kept(content, g);
              var said := if Rescues(d, o, kept, 1) then SaidNext(o, 1) else kept;
              var g' := o.grade(said, None);
              final == if said == content then o.afterRepair(content, g) else if g'.adequate then said else o.afterRepair(said, g')
  {
    var content := Concat(o.chunks);
    var g := o.grade(content, None);
    RetryAnswers(d, o, Kept(content, g), base, 1);
  }

  /** What a reader may be answered with: a text with an adequate grade, or the repair of
      one that was refused, with the grade that refused it. */
  lemma AcceptedOrRepaired(d: Decision, o: Oracle, base: seq<Message>, message: string)
    ensures var r := RunTurn(d, o, base, message);
            || o.grade(r.content, r.retrieval).adequate
            || exists text, refused :: !o.grade(refused, r.retrieval).adequate
                 && (text == refused || text == Kept(refused, o.grade(refused, r.retrieval)))
                 && r.content == o.afterRepair(text, o.grade(refused, r.retrieval))
  {
    var r := RunTurn(d, o, base, message);
    if d.toolLoop {
      LoopAnswers(d, o, base, message);
      var done, answer, n: nat :| CarriedOut(o.reply(0).toolCalls, d.maxToolCalls, done)
        && LoopAnswer(d, o, message, done, answer, r.retrieval, n) && Settled(d, o, answer, false, r.retrieval, n, r.content);
      SettledIsGraded(d, o, answer, false, r.retrieval, n, r.content);
    } else {
      BufferedAnswers(d, o, base, message);
      var d' :| Narrowed(d, r.retrieval, d') && Settled(d', o, o.reply(0).text, true, r.retrieval, 1, r.content);
      SettledIsGraded(d', o, o.reply(0).text, true, r.retrieval, 1, r.content);
    }
  }

  lemma SettledIsGraded(d: Decision, o: Oracle, answer: string, guided: bool, retrieval: Option<Retrieval>, n: nat, content: string)
    requires Settled(d, o, answer, guided, retrieval, n, content)
    ensures || o.grade(content, retrieval).adequate
            || exists text, refused :: !o.grade(refused, retrieval).adequate
                 && (text == refused || text == Kept(refused, o.grade(refused, retrieval)))
                 && content == o.afterRepair(text, o.grade(refused, retrieval))
  {
  }
}
