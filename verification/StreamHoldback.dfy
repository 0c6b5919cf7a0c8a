/** The streamed turn: chunks are held back while they could still turn into the
    internal sentinel, then released, and whatever the quality gate decides is
    appended or substituted. */
module StreamHoldback {
  import opened Text
  import opened AnswerText
  import opened ChatTurn

  const SEPARATOR := "\n\n---\nQuality-check note: "

  /** `_sentinel_might_emerge`, for any list of candidates. */
  predicate MightEmerge(candidates: seq<string>, buffered: string) {
    && buffered != ""
    && (StripLeft(buffered) == "" || exists s :: s in candidates && StripLeft(buffered) <= s)
  }

  // ----- what the test means -----

  lemma {:induction false} StripLeftExtends(s: string, t: string)
    ensures StripLeft(s) != "" ==> StripLeft(s + t) == StripLeft(s) + t
    ensures StripLeft(s) == "" ==> StripLeft(s + t) == StripLeft(t)
  {
    if s == "" {
      assert s + t == t;
    } else if IsSpace(s[0]) {
      assert (s + t)[1..] == s[1..] + t;
      StripLeftExtends(s[1..], t);
    }
  }

  /** Some continuation turns the text into a candidate. */
  ghost predicate CanBecome(candidates: seq<string>, text: string) {
    exists rest :: StripLeft(text + rest) in candidates
  }

  /** Held text is exactly text that some continuation turns into a sentinel. */
  lemma MightEmergeIff(candidates: seq<string>, text: string)
    requires GoodSentinels(candidates) && candidates != [] && text != ""
    ensures MightEmerge(candidates, text) <==> CanBecome(candidates, text)
  {
    var t := StripLeft(text);
    if t == "" {
      var s := candidates[0];
      assert s in candidates && StripLeft(s) == s;
      StripLeftExtends(text, s);
      assert StripLeft(text + s) in candidates;
    } else {
      if MightEmerge(candidates, text) {
        var s :| s in candidates && t <= s;
        StripLeftExtends(text, s[|t|..]);
        assert t + s[|t|..] == s;
        assert StripLeft(text + s[|t|..]) in candidates;
      }
      if CanBecome(candidates, text) {
        var rest :| StripLeft(text + rest) in candidates;
        StripLeftExtends(text, rest);
        assert t <= StripLeft(text + rest);
      }
    }
  }

  /** Once text cannot become a sentinel, no continuation of it can. */
  lemma StaysClear(candidates: seq<string>, text: string, more: string)
    requires text != "" && !MightEmerge(candidates, text)
    ensures !MightEmerge(candidates, text + more)
  {
    StripLeftExtends(text, more);
    var t, u := StripLeft(text), StripLeft(text + more);
    assert t <= u && u != "";
    assert forall s :: s in candidates && u <= s ==> t <= s;
  }

  // ----- the live part -----

  /** What has been shown while `received` is all that has arrived. */
  function Live(candidates: seq<string>, received: string): string {
    if received == "" || MightEmerge(candidates, received) then "" else received
  }

  lemma {:induction false} ConcatNext(chunks: seq<string>, i: nat)
    requires i < |chunks|
    ensures Concat(chunks[..i + 1]) == Concat(chunks[..i]) + chunks[i]
  {
    assert chunks[..i + 1][..i] == chunks[..i];
  }

  lemma LiveNext(candidates: seq<string>, buffered: string, chunk: string)
    ensures Live(candidates, buffered) != "" ==> Live(candidates, buffered + chunk) == Live(candidates, buffered) + chunk
    ensures buffered + "" == buffered
  {
    if Live(candidates, buffered) != "" {
      StaysClear(candidates, buffered, chunk);
    }
  }

  /** One chunk: what it lets through, given what was held or shown before. */
  method Accept(candidates: seq<string>, buffered: string, chunk: string, emitted: bool) returns (piece: string, now: bool)
    requires emitted <==> Live(candidates, buffered) != ""
    ensures Live(candidates, buffered + chunk) == Live(candidates, buffered) + piece
    ensures now <==> Live(candidates, buffered + chunk) != ""
  {
    LiveNext(candidates, buffered, chunk);
    if chunk == "" {
      return "", emitted;
    }
    if emitted {
      return chunk, true;
    }
    if MightEmerge(candidates, buffered + chunk) {
      return "", false;
    }
    return buffered + chunk, true;
  }

  /** After each of the first `n` chunks, what has been shown is what is live. */
  ghost predicate ShownSoFar(candidates: seq<string>, chunks: seq<string>, n: nat, shown: seq<string>) {
    n <= |chunks| && |shown| == n + 1 && forall k :: 0 <= k <= n ==> shown[k] == Live(candidates, Concat(chunks[..k]))
  }

  /** The loop over the provider's chunks. `outputs` are the pieces yielded live;
      `shown[k]` is everything shown once the first k chunks have arrived. */
  method HoldBack(candidates: seq<string>, chunks: seq<string>) returns (outputs: seq<string>, shown: seq<string>, emitted: bool)
    ensures ShownSoFar(candidates, chunks, |chunks|, shown)
    ensures Concat(outputs) == Live(candidates, Concat(chunks))
    ensures emitted <==> Live(candidates, Concat(chunks)) != ""
  {
    outputs, shown, emitted := [], [""], false;
    var buffered := "";
    for i := 0 to |chunks|
      invariant buffered == Concat(chunks[..i])
      invariant ShownSoFar(candidates, chunks, i, shown)
      invariant Concat(outputs) == Live(candidates, buffered)
      invariant emitted <==> Live(candidates, buffered) != ""
    {
      ConcatNext(chunks, i);
      var piece;
      piece, emitted := Accept(candidates, buffered, chunks[i], emitted);
      buffered := buffered + chunks[i];
      if piece != "" {
        ConcatSnoc(outputs, piece);
        outputs := outputs + [piece];
      }
      shown := shown + [Concat(outputs)];
    }
    assert chunks[..|chunks|] == chunks;
  }

  /** At every moment nothing or exactly everything received has been shown, and
      nothing if and only if it is empty or could still become a sentinel. */
  lemma ShownIsNothingOrAll(received: string)
    ensures Live(SENTINELS, received) == if received == "" || CanBecome(SENTINELS, received) then "" else received
  {
    if received != "" {
      SentinelsGood();
      MightEmergeIff(SENTINELS, received);
    }
  }

  // ----- a sentinel that is shown -----

  lemma {:induction false} StripRightBlank(s: string, c: char)
    requires IsSpace(c)
    ensures StripRight(s + [c]) == StripRight(s)
  {
    assert (s + [c])[..|s + [c]| - 1] == s;
  }

  lemma BlankAfter(candidates: seq<string>, s: string, c: char)
    requires GoodSentinels(candidates) && s in candidates && IsSpace(c)
    ensures IsOneOf(candidates, s + [c]) && Live(candidates, s + [c]) == s + [c]
  {
    assert StripLeft(s) == s;
    StripLeftExtends(s, [c]);
    StripRightBlank(s, c);
    assert Strip(s + [c]) == Strip(s);
    forall t | t in candidates ensures !(s + [c] <= t) {
      assert s[0] == (s + [c])[0];
      assert |s + [c]| > |s|;
    }
  }

  /** The recogniser ignores trailing blanks and the hold-back does not: a sentinel
      followed by a blank counts as no answer, and is shown live all the same. */
  lemma BlankAfterSentinelIsShown(s: string, c: char)
    requires s in SENTINELS && IsSpace(c)
    ensures IsUnknown(s + [c]) && Live(SENTINELS, s + [c]) == s + [c]
  {
    SentinelsGood();
    BlankAfter(SENTINELS, s, c);
  }

  /** A proper beginning of a sentinel is not itself recognised. */
  lemma BeginningIsNotUnknown(candidates: seq<string>, t: string, s: string)
    requires GoodSentinels(candidates) && s in candidates && t != "" && t < s
    ensures !IsOneOf(candidates, t)
  {
    assert t[0] == s[0];
    NormalizeFits(t);
    forall s' | s' in candidates ensures Normalize(t) != Normalize(s') {
      assert Normalize(s')[0] == LowerChar(s'[0]) && |Normalize(s')| == |s'|;
    }
  }

  lemma LeadingBlanksIgnored(candidates: seq<string>, text: string)
    ensures IsOneOf(candidates, text) <==> IsOneOf(candidates, StripLeft(text))
  {
    StripLeftTwice(text);
    assert Strip(text) == Strip(StripLeft(text));
  }

  lemma {:induction false} StripLeftTwice(s: string)
    ensures StripLeft(StripLeft(s)) == StripLeft(s)
  {
    if s != "" && IsSpace(s[0]) {
      StripLeftTwice(s[1..]);
    }
  }

  lemma HiddenIff(candidates: seq<string>, content: string)
    requires GoodSentinels(candidates) && IsOneOf(candidates, content)
    ensures Live(candidates, content) == "" <==> StripLeft(content) in candidates
  {
    var t := StripLeft(content);
    LeadingBlanksIgnored(candidates, content);
    assert Normalize("") == "";
    assert t != "" && content != "";
    forall s | s in candidates && t <= s ensures t in candidates {
      if t != s {
        BeginningIsNotUnknown(candidates, t, s);
        assert false;
      }
    }
  }

  /** Exactly which unknown answers the reader never sees live: a sentinel to the
      letter, after any leading blanks. */
  lemma UnknownAnswerHiddenIff(content: string)
    requires IsUnknown(content)
    ensures Live(SENTINELS, content) == "" <==> StripLeft(content) in SENTINELS
  {
    SentinelsGood();
    HiddenIff(SENTINELS, content);
  }

  // ----- the whole output -----

  /** What the reader ends up with, given the answer and the final text. */
  function Presented(content: string, final: string): string {
    if final == content then content
    else if Live(SENTINELS, content) != "" then content + SEPARATOR + final
    else final
  }

  /** What the reader ends up with: the answer, when nothing replaces it; what replaces
      it, when nothing of it could be shown; or the answer that was shown and, under a
      line that says what it is, the correction. */
  lemma PresentedIs(content: string, final: string)
    ensures Presented(content, final) ==
              if final == content then content
              else if content == "" || CanBecome(SENTINELS, content) then final
              else content + "\n\n---\nQuality-check note: " + final
  {
    ShownIsNothingOrAll(content);
  }

  lemma ConcatSnoc(outputs: seq<string>, s: string)
    ensures Concat(outputs + [s]) == Concat(outputs) + s
  {
    assert (outputs + [s])[..|outputs|] == outputs;
  }

  /** The last piece: nothing more, the whole text, or a labelled correction. */
  method Conclude(outputs: seq<string>, emitted: bool, content: string, final: string) returns (all: seq<string>)
    requires Concat(outputs) == Live(SENTINELS, content) && (emitted <==> Live(SENTINELS, content) != "")
    ensures Concat(all) == Presented(content, final)
  {
    all := outputs;
    if final == content {
      if !emitted && content != "" {
        ConcatSnoc(outputs, content);
        all := outputs + [content];
      }
    } else if emitted {
      ConcatSnoc(outputs, SEPARATOR + final);
      all := outputs + [SEPARATOR + final];
      assert content + (SEPARATOR + final) == content + SEPARATOR + final;
    } else {
      ConcatSnoc(outputs, final);
      all := outputs + [final];
    }
  }

  /** `stream`, on the path that is not buffered. */
  method Stream(orchestrator: ChatTurnOrchestrator, d: Decision, base: seq<Message>, message: string) returns (outputs: seq<string>)
    requires orchestrator.calls == []
    requires !d.retrievalRequired && !d.serviceMode && !d.toolLoop
    modifies orchestrator
    ensures orchestrator.calls == StreamTurn(d, orchestrator.o, base, message).calls
    ensures Concat(outputs) == Presented(Concat(orchestrator.o.chunks), StreamTurn(d, orchestrator.o, base, message).content)
  {
    var o := orchestrator.o;
    var reply := orchestrator.Chat(Ask(d, base, false, true));
    var shown, emitted;
    outputs, shown, emitted := HoldBack(SENTINELS, o.chunks);
    var content := Concat(o.chunks);
    var fallback := Guided(o, content);
    if fallback != content {
      outputs := Conclude(outputs, emitted, content, fallback);
      return;
    }
    var grade := o.grade(content, None);
    if grade.adequate {
      outputs := Conclude(outputs, emitted, content, content);
      return;
    }
    var repaired := Repaired(content, grade);
    repaired := orchestrator.RetryCloudIfUnknown(d, repaired, base);
    var final;
    if repaired != content {
      var regrade := o.grade(repaired, None);
      final := if regrade.adequate then repaired else o.afterRepair(repaired, regrade);
    } else {
      final := o.afterRepair(content, grade);
    }
    outputs := Conclude(outputs, emitted, content, final);
  }
}
