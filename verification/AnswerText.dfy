/** The internal "no answer" sentinel, its legacy spelling, and how the two are
    recognised in a model's output. */
module AnswerText {
  import opened Text

  const UNKNOWN_ANSWER := "__needs_directional_fallback__"
  const LEGACY_WORDS := ["I", "don't", "know", "based", "on", "the", "current", "documentation."]
  const LEGACY_UNKNOWN_ANSWER := Join(LEGACY_WORDS)
  const SENTINELS := [UNKNOWN_ANSWER, LEGACY_UNKNOWN_ANSWER]

  lemma {:induction false} StripLeftShortens(s: string)
    ensures |StripLeft(s)| <= |s|
  {
    if s != "" && IsSpace(s[0]) {
      StripLeftShortens(s[1..]);
    }
  }

  function WordLength(s: string): (n: nat)
    ensures n <= |s|
  {
    if s == "" || IsSpace(s[0]) then 0 else 1 + WordLength(s[1..])
  }

  /** `s.split()`: the maximal runs of non-blank characters. */
  function Words(s: string): seq<string>
    decreases |s|
  {
    StripLeftShortens(s);
    var t := StripLeft(s);
    if t == "" then [] else [t[..WordLength(t)]] + Words(t[WordLength(t)..])
  }

  function Join(words: seq<string>): string {
    if words == [] then "" else if |words| == 1 then words[0] else words[0] + " " + Join(words[1..])
  }

  /** Blanks stripped and collapsed, letters in lower case. */
  function Normalize(s: string): string {
    Join(Words(Lower(Strip(s))))
  }

  predicate IsOneOf(candidates: seq<string>, answer: string) {
    exists s :: s in candidates && Normalize(answer) == Normalize(s)
  }

  /** `is_unknown_answer`. */
  predicate IsUnknown(answer: string) {
    IsOneOf(SENTINELS, answer)
  }

  // ----- what normalising does to length and to the first character -----

  lemma {:induction false} StripLeftBlank(s: string)
    requires s != "" && IsSpace(s[0])
    ensures |StripLeft(s)| < |s|
  {
    StripLeftShortens(s[1..]);
  }

  lemma {:induction false} WordLengthStops(s: string)
    ensures WordLength(s) < |s| ==> IsSpace(s[WordLength(s)])
    ensures s != "" && !IsSpace(s[0]) ==> WordLength(s) >= 1
  {
    if s != "" && !IsSpace(s[0]) {
      WordLengthStops(s[1..]);
    }
  }

  lemma {:induction false} JoinedWordsFit(s: string)
    ensures |Join(Words(s))| <= |StripLeft(s)|
    ensures StripLeft(s) != "" ==> Join(Words(s)) != "" && Join(Words(s))[0] == StripLeft(s)[0]
    decreases |s|
  {
    StripLeftShortens(s);
    var t := StripLeft(s);
    if t != "" {
      var n := WordLength(t);
      WordLengthStops(t);
      JoinedWordsFit(t[n..]);
      if t[n..] != "" {
        StripLeftBlank(t[n..]);
      }
      var rest := Words(t[n..]);
      assert Words(s)[0] == t[..n] && Words(s)[1..] == rest;
    }
  }

  lemma {:induction false} StripRightPrefix(s: string)
    ensures StripRight(s) <= s
    ensures s != "" && !IsSpace(s[0]) ==> StripRight(s) != ""
  {
    if s != "" && IsSpace(s[|s| - 1]) {
      StripRightPrefix(s[..|s| - 1]);
    }
  }

  lemma LowerSpaces(c: char)
    ensures IsSpace(LowerChar(c)) == IsSpace(c)
  {
  }

  lemma NormalizeFits(s: string)
    requires s != "" && !IsSpace(s[0])
    ensures |Normalize(s)| <= |s| && Normalize(s) != "" && Normalize(s)[0] == LowerChar(s[0])
  {
    StripRightPrefix(s);
    var t := Lower(StripRight(s));
    assert StripLeft(s) == s;
    LowerSpaces(s[0]);
    assert StripLeft(t) == t;
    JoinedWordsFit(t);
  }

  // ----- text already in normal form, up to case -----

  /** Words separated by single spaces. */
  predicate Neat(s: string)
    decreases |s|
  {
    && s != "" && !IsSpace(s[0])
    && var n := WordLength(s);
       n == |s| || (n + 1 < |s| && s[n] == ' ' && Neat(s[n + 1..]))
  }

  lemma {:induction false} WordLengthIs(w: string, rest: string)
    requires forall i :: 0 <= i < |w| ==> !IsSpace(w[i])
    requires rest == "" || IsSpace(rest[0])
    ensures WordLength(w + rest) == |w|
  {
    if w == "" {
      assert w + rest == rest;
    } else {
      assert (w + rest)[1..] == w[1..] + rest;
      WordLengthIs(w[1..], rest);
    }
  }

  lemma NeatWord(w: string)
    requires w != "" && forall i :: 0 <= i < |w| ==> !IsSpace(w[i])
    ensures Neat(w)
  {
    WordLengthIs(w, "");
    assert w + "" == w;
  }

  lemma NeatPair(w: string, rest: string)
    requires w != "" && (forall i :: 0 <= i < |w| ==> !IsSpace(w[i])) && Neat(rest)
    ensures Neat(w + " " + rest)
  {
    var s := w + " " + rest;
    WordLengthIs(w, " " + rest);
    assert s == w + (" " + rest);
    assert s[|w|] == ' ' && s[|w| + 1..] == rest;
  }

  lemma {:induction false} NeatJoins(s: string)
    requires Neat(s)
    ensures Join(Words(s)) == s
    decreases |s|
  {
    var n := WordLength(s);
    WordLengthStops(s);
    assert StripLeft(s) == s;
    if n == |s| {
      assert s[n..] == "" && s[..n] == s;
    } else {
      NeatJoins(s[n + 1..]);
      assert s[n..][1..] == s[n + 1..];
      assert Words(s[n..]) == Words(s[n + 1..]) by {
        assert StripLeft(s[n..]) == StripLeft(s[n + 1..]);
      }
      assert Words(s)[0] == s[..n] && Words(s)[1..] == Words(s[n + 1..]);
      assert s == s[..n] + " " + s[n + 1..];
    }
  }

  lemma {:induction false} WordLengthLower(s: string)
    ensures WordLength(Lower(s)) == WordLength(s)
  {
    if s != "" {
      LowerSpaces(s[0]);
      assert Lower(s)[1..] == Lower(s[1..]);
      WordLengthLower(s[1..]);
    }
  }

  lemma {:induction false} NeatLower(s: string)
    requires Neat(s)
    ensures Neat(Lower(s)) && !IsSpace(s[|s| - 1])
    decreases |s|
  {
    var n := WordLength(s);
    WordLengthLower(s);
    LowerSpaces(s[0]);
    LastOfWord(s);
    if n < |s| {
      NeatLower(s[n + 1..]);
      assert Lower(s)[n + 1..] == Lower(s[n + 1..]);
    }
  }

  lemma {:induction false} LastOfWord(s: string)
    requires s != "" && !IsSpace(s[0])
    ensures !IsSpace(s[WordLength(s) - 1])
  {
    if WordLength(s) > 1 {
      LastOfWord(s[1..]);
    }
  }

  lemma NeatNormal(s: string)
    requires Neat(s)
    ensures Normalize(s) == Lower(s)
  {
    NeatLower(s);
    assert StripLeft(s) == s && StripRight(s) == s;
    NeatJoins(Lower(s));
  }

  lemma UnknownNormal()
    ensures Normalize(UNKNOWN_ANSWER) == Lower(UNKNOWN_ANSWER)
  {
    assert forall i :: 0 <= i < |UNKNOWN_ANSWER| ==> !IsSpace(UNKNOWN_ANSWER[i]);
    NeatWord(UNKNOWN_ANSWER);
    NeatNormal(UNKNOWN_ANSWER);
  }

  predicate Solid(w: string) {
    w != "" && forall i :: 0 <= i < |w| ==> !IsSpace(w[i])
  }

  lemma {:induction false} NeatSentence(words: seq<string>)
    requires words != [] && forall w :: w in words ==> Solid(w)
    ensures Neat(Join(words)) && Join(words)[0] == words[0][0]
  {
    assert Solid(words[0]);
    if |words| == 1 {
      NeatWord(words[0]);
    } else {
      NeatSentence(words[1..]);
      NeatPair(words[0], Join(words[1..]));
    }
  }

  lemma LegacyWordsSolid()
    ensures forall w :: w in LEGACY_WORDS ==> Solid(w)
  {
    forall w | w in LEGACY_WORDS ensures Solid(w) {
      assert Solid("I") && Solid("don't") && Solid("know") && Solid("based");
      assert Solid("on") && Solid("the") && Solid("current") && Solid("documentation.");
    }
  }

  lemma LegacyNormal()
    ensures Normalize(LEGACY_UNKNOWN_ANSWER) == Lower(LEGACY_UNKNOWN_ANSWER)
    ensures LEGACY_UNKNOWN_ANSWER != "" && LEGACY_UNKNOWN_ANSWER[0] == 'I'
  {
    LegacyWordsSolid();
    var words := LEGACY_WORDS;
    NeatSentence(words);
    NeatNormal(Join(words));
  }

  /** What the hold-back relies on: sentinels start with their own character, and
      normalising one only changes case. */
  ghost predicate GoodSentinels(candidates: seq<string>) {
    && (forall s :: s in candidates ==> s != "" && !IsSpace(s[0]) && Normalize(s) == Lower(s))
    && (forall s, t :: s in candidates && t in candidates && LowerChar(s[0]) == LowerChar(t[0]) ==> s == t)
  }

  lemma SentinelsGood()
    ensures GoodSentinels(SENTINELS)
  {
    UnknownNormal();
    LegacyNormal();
    TwoGood(UNKNOWN_ANSWER, LEGACY_UNKNOWN_ANSWER);
  }

  lemma TwoGood(a: string, b: string)
    requires a != "" && a[0] == '_' && Normalize(a) == Lower(a)
    requires b != "" && b[0] == 'I' && Normalize(b) == Lower(b)
    ensures GoodSentinels([a, b])
  {
    assert !IsSpace('_') && !IsSpace('I') && LowerChar('_') == '_' && LowerChar('I') == 'i';
    forall s | s in [a, b] ensures s == a || s == b {
    }
  }

  // ----- what the recogniser ignores -----

  lemma {:induction false} StripLeftLower(s: string)
    ensures StripLeft(Lower(s)) == Lower(StripLeft(s))
  {
    if s != "" {
      LowerSpaces(s[0]);
      assert Lower(s)[1..] == Lower(s[1..]);
      StripLeftLower(s[1..]);
    }
  }

  lemma {:induction false} StripRightLower(s: string)
    ensures StripRight(Lower(s)) == Lower(StripRight(s))
  {
    if s != "" {
      LowerSpaces(s[|s| - 1]);
      assert Lower(s)[..|s| - 1] == Lower(s[..|s| - 1]);
      StripRightLower(s[..|s| - 1]);
    }
  }

  /** An answer in other letter cases is recognised all the same. */
  lemma UnknownIgnoresCase(answer: string, other: string)
    requires Lower(answer) == Lower(other)
    ensures IsUnknown(answer) <==> IsUnknown(other)
  {
    StripLeftLower(answer);
    StripRightLower(StripLeft(answer));
    StripLeftLower(other);
    StripRightLower(StripLeft(other));
    assert Lower(Strip(answer)) == Lower(Strip(other));
    assert Normalize(answer) == Normalize(other);
  }
}
