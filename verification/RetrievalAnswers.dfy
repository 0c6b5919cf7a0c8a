/** What a retrieval answers with: whose text, marked how, and from which search, also
    when the answer comes out of the cache and the backends have changed since. */
module RetrievalAnswers {
  import opened Text
  import opened RetrievalCache

  // ----- when a text is of use -----

  const NOTHING_FOUND := "no relevant information found"
  const SEARCH_FAILED := "error searching knowledge base"

  ghost predicate Apologises(content: string) {
    Contains(Lower(content), NOTHING_FOUND) || Contains(Lower(content), SEARCH_FAILED)
  }

  ghost predicate Blank(s: string) {
    forall i :: 0 <= i < |s| ==> IsSpace(s[i])
  }

  lemma {:induction false} StripLeftBlank(s: string)
    ensures StripLeft(s) == "" <==> Blank(s)
  {
    if s != "" {
      StripLeftBlank(s[1..]);
      if Blank(s[1..]) && IsSpace(s[0]) {
        forall i | 0 <= i < |s| ensures IsSpace(s[i]) {
          assert i > 0 ==> s[i] == s[1..][i - 1];
        }
      }
      if Blank(s) {
        forall i | 0 <= i < |s[1..]| ensures IsSpace(s[1..][i]) {
          assert s[1..][i] == s[i + 1];
        }
      }
    }
  }

  lemma {:induction false} StripRightKeepsFirst(s: string)
    requires s != "" && !IsSpace(s[0])
    ensures StripRight(s) != ""
  {
    if IsSpace(s[|s| - 1]) {
      StripRightKeepsFirst(s[..|s| - 1]);
    }
  }

  lemma UsableIff(content: string)
    ensures Usable(content) <==> !Blank(content) && !Apologises(content)
  {
    StripLeftBlank(content);
    if StripLeft(content) != "" {
      StripRightKeepsFirst(StripLeft(content));
    }
  }

  lemma LowerConcat(a: string, b: string)
    ensures Lower(a + b) == Lower(a) + Lower(b)
  {
  }

  lemma ContainsInHalf(a: string, gap: string, b: string, w: string)
    requires w != "" && gap != "" && forall c :: c in gap ==> c !in w
    ensures Contains(a + gap + b, w) <==> Contains(a, w) || Contains(b, w)
  {
    var s := a + gap + b;
    if Contains(a, w) {
      var i :| 0 <= i <= |a| && OccursAt(a, w, i);
      assert s[i..i + |w|] == a[i..i + |w|];
      assert OccursAt(s, w, i);
    }
    if Contains(b, w) {
      var i :| 0 <= i <= |b| && OccursAt(b, w, i);
      var j := |a| + |gap| + i;
      assert s[j..j + |w|] == b[i..i + |w|];
      assert OccursAt(s, w, j);
    }
    if Contains(s, w) {
      var i :| 0 <= i <= |s| && OccursAt(s, w, i);
      OccursInHalf(a, gap, b, w, i);
    }
  }

  /** An occurrence that lies in neither half shares a character with the gap. */
  lemma GapIsMet(a: string, gap: string, b: string, w: string, i: nat)
    requires w != "" && gap != "" && i < |a| + |gap| && |a| < i + |w| && OccursAt(a + gap + b, w, i)
    ensures exists c :: c in gap && c in w
  {
    var s := a + gap + b;
    var k := if i <= |a| then |a| - i else 0;
    assert s[i + k] == s[i..i + |w|][k];
    assert w[k] in gap && w[k] in w;
  }

  lemma OccursInHalf(a: string, gap: string, b: string, w: string, i: nat)
    requires w != "" && gap != "" && forall c :: c in gap ==> c !in w
    requires OccursAt(a + gap + b, w, i)
    ensures Contains(a, w) || Contains(b, w)
  {
    var s := a + gap + b;
    assert forall k :: 0 <= k < |w| ==> s[i + k] == w[k];
    if i + |w| <= |a| {
      assert a[i..i + |w|] == s[i..i + |w|];
      assert OccursAt(a, w, i);
    } else if i >= |a| + |gap| {
      var j := i - |a| - |gap|;
      assert b[j..j + |w|] == s[i..i + |w|];
      assert OccursAt(b, w, j);
    } else {
      GapIsMet(a, gap, b, w, i);
    }
  }

  lemma JoinedApologises(a: string, b: string)
    ensures Apologises(a + "\n\n" + b) <==> Apologises(a) || Apologises(b)
  {
    LowerConcat(a + "\n\n", b);
    LowerConcat(a, "\n\n");
    assert Lower("\n\n") == "\n\n";
    ContainsInHalf(Lower(a), "\n\n", Lower(b), NOTHING_FOUND);
    ContainsInHalf(Lower(a), "\n\n", Lower(b), SEARCH_FAILED);
  }

  /** A usable text with a discovery after it is of use unless the discovery apologises. */
  lemma JoinedUsable(a: string, b: string)
    requires Usable(a)
    ensures Usable(a + "\n\n" + b) <==> !Apologises(b)
  {
    UsableIff(a);
    UsableIff(a + "\n\n" + b);
    JoinedApologises(a, b);
    var i :| 0 <= i < |a| && !IsSpace(a[i]);
    assert (a + "\n\n" + b)[i] == a[i];
  }

  // ----- one search -----

  /** What the local search is asked: the question itself, or the question with the
      words that find importable workflows after it. */
  ghost predicate AskedFor(query: string, tool: string, sent: string) {
    var l := Lower(query);
    if tool == "workflow_pattern_search" && (Contains(l, "bundle") || Contains(l, "import") || Contains(l, "plug in") || Contains(l, "template"))
    then query < sent else sent == query
  }

  /** The answer of the backends themselves, put together. */
  ghost predicate FromBackends(text: string, textEligible: bool, found: string, foundEligible: bool, r: RetrievalResult) {
    && (r.cloudEligible <==> textEligible && foundEligible)
    && (found == "" ==> r.content == text && r.source == "local")
    && (found != "" && Usable(text) ==> r.content == text + "\n\n" + found && r.source == "local+discovery")
    && (found != "" && !Usable(text) ==> r.content == found && r.source == "discovery")
  }

  /** Neither is of use, or the discovery apologises after a text that is. */
  ghost predicate Disappoints(text: string, found: string) {
    if Usable(text) then found != "" && Apologises(found) else !Usable(found)
  }

  /** The fallback is configured and has something to say. */
  ghost predicate FallbackSays(b: Backend, key: Key, content: string) {
    b.fallback.Some? && b.fallback.value(key.0, key.1, key.2) == Some(content) && !Blank(content)
  }

  lemma FallbackIs(b: Backend, key: Key)
    ensures FallbackResult(b, key).Some? <==> exists content :: FallbackSays(b, key, content)
    ensures FallbackResult(b, key).Some? ==>
              FallbackSays(b, key, FallbackResult(b, key).value.content)
              && FallbackResult(b, key).value == RetrievalResult(key.1, key.0, FallbackResult(b, key).value.content, "fallback", true)
  {
    if b.fallback.Some? && b.fallback.value(key.0, key.1, key.2).Some? {
      var content := b.fallback.value(key.0, key.1, key.2).value;
      StripLeftBlank(content);
      if StripLeft(content) != "" {
        StripRightKeepsFirst(StripLeft(content));
      }
      assert FallbackSays(b, key, content) <==> Strip(content) != "";
    }
  }

  /** An answer of one search: the backends' own, which the cloud may see only when both
      say so, or the fallback's, exactly when theirs disappoints and it has something
      to say. */
  ghost predicate Searched(b: Backend, key: Key, r: RetrievalResult) {
    r.toolName == key.1 && r.query == key.0 && exists sent :: AskedFor(key.0, key.1, sent) && PutTogether(b, key, sent, r)
  }

  ghost predicate PutTogether(b: Backend, key: Key, sent: string, r: RetrievalResult) {
    var (text, textEligible) := b.search(sent, key.2);
    var (found, foundEligible) := b.discover(key.0);
    if Disappoints(text, found) && exists content :: FallbackSays(b, key, content) then
      r.source == "fallback" && r.cloudEligible && FallbackSays(b, key, r.content)
    else FromBackends(text, textEligible, found, foundEligible, r)
  }

  lemma LocalIsFromBackends(b: Backend, key: Key)
    ensures var (text, textEligible) := b.search(SearchQuery(key.0, key.1), key.2);
            var (found, foundEligible) := b.discover(key.0);
            && FromBackends(text, textEligible, found, foundEligible, LocalResult(b, key))
            && (Usable(LocalResult(b, key).content) <==> !Disappoints(text, found))
  {
    var (text, textEligible) := b.search(SearchQuery(key.0, key.1), key.2);
    var (found, foundEligible) := b.discover(key.0);
    if found != "" && Usable(text) {
      JoinedUsable(text, found);
    }
    UsableIff("");
  }

  /** The uncached search answers so. */
  lemma SearchIsSearched(b: Backend, key: Key)
    ensures Searched(b, key, Search(b, key))
  {
    var sent := SearchQuery(key.0, key.1);
    assert AskedFor(key.0, key.1, sent);
    LocalIsFromBackends(b, key);
    FallbackIs(b, key);
  }

  // ----- every answer of every sequence of requests -----

  /** A request, and the backends as they are when it comes. */
  datatype Asked = Asked(key: Key, now: real, b: Backend)

  function CacheNow(cfg: Config, asked: seq<Asked>): seq<Entry> {
    if asked == [] then []
    else
      var last := asked[|asked| - 1];
      AfterRetrieve(cfg, CacheNow(cfg, asked[..|asked| - 1]), last.key, last.now, last.b)
  }

  /** The answer to the last of the requests. */
  function AnswerTo(cfg: Config, asked: seq<Asked>): RetrievalResult
    requires asked != []
  {
    var last := asked[|asked| - 1];
    Retrieved(cfg, CacheNow(cfg, asked[..|asked| - 1]), last.key, last.now, last.b)
  }

  /** Request `k` asked for the key and was answered so by a search of its own. */
  ghost predicate FoundAt(asked: seq<Asked>, k: nat, key: Key, r: RetrievalResult) {
    k < |asked| && asked[k].key == key && Searched(asked[k].b, key, r)
  }

  ghost predicate Sourced(asked: seq<Asked>, e: Entry) {
    exists k: nat :: FoundAt(asked, k, e.key, e.value) && e.cachedAt == asked[k].now && Usable(e.value.content)
  }

  lemma SourcedLater(asked: seq<Asked>, more: Asked, e: Entry)
    requires Sourced(asked, e)
    ensures Sourced(asked + [more], e)
  {
    var k: nat :| FoundAt(asked, k, e.key, e.value) && e.cachedAt == asked[k].now && Usable(e.value.content);
    assert (asked + [more])[k] == asked[k];
    assert FoundAt(asked + [more], k, e.key, e.value);
  }

  lemma {:induction false} CacheIsSourced(cfg: Config, asked: seq<Asked>)
    ensures forall e :: e in CacheNow(cfg, asked) ==> Sourced(asked, e)
  {
    if asked != [] {
      var n := |asked| - 1;
      var before, last := asked[..n], asked[n];
      CacheIsSourced(cfg, before);
      assert before + [last] == asked;
      SearchIsSearched(last.b, last.key);
      forall e | e in CacheNow(cfg, asked) ensures Sourced(asked, e) {
        if e in CacheNow(cfg, before) {
          SourcedLater(before, last, e);
        } else {
          CameIn(cfg, CacheNow(cfg, before), last, e);
          assert FoundAt(asked, n, e.key, e.value);
        }
      }
    }
  }

  /** What a retrieval adds to the cache is what its own search found, if it is of use. */
  lemma CameIn(cfg: Config, cache: seq<Entry>, a: Asked, e: Entry)
    requires e in AfterRetrieve(cfg, cache, a.key, a.now, a.b) && e !in cache
    ensures e == Entry(a.key, a.now, Search(a.b, a.key)) && Usable(e.value.content)
  {
    var looked := AfterGet(cfg, cache, a.key, a.now);
    assert e !in looked;
    var put := Without(looked, a.key) + [Entry(a.key, a.now, Search(a.b, a.key))];
    assert forall x :: x in Newest(put, cfg.maxEntries) ==> x in put;
  }

  lemma SourceOf(before: seq<Asked>, last: Asked, e: Entry) returns (k: nat)
    requires Sourced(before, e)
    ensures FoundAt(before + [last], k, e.key, e.value) && (before + [last])[k].now == e.cachedAt
  {
    k :| FoundAt(before, k, e.key, e.value) && e.cachedAt == before[k].now && Usable(e.value.content);
    assert (before + [last])[k] == before[k];
  }

  /** Whatever the backends do from one request to the next: every answer is one that a
      search for the same question gave, its own or an earlier one no older than the
      TTL, and is marked for the cloud by that search. */
  lemma EveryAnswerWasSearched(cfg: Config, asked: seq<Asked>)
    requires asked != []
    ensures var n, r := |asked| - 1, AnswerTo(cfg, asked);
            exists k: nat :: FoundAt(asked, k, asked[n].key, r) && (k == n || cfg.ttl <= 0.0 || asked[n].now - asked[k].now <= cfg.ttl)
  {
    var n := |asked| - 1;
    var before, last := asked[..n], asked[n];
    var hit := Find(CacheNow(cfg, before), last.key);
    CacheIsSourced(cfg, before);
    SearchIsSearched(last.b, last.key);
    if hit.Some? && !Expired(cfg, hit.value, last.now) {
      var k := SourceOf(before, last, hit.value);
      assert before + [last] == asked;
      assert FoundAt(asked, k, last.key, AnswerTo(cfg, asked));
    } else {
      assert FoundAt(asked, n, last.key, AnswerTo(cfg, asked));
    }
  }

  /** No answer that is not the fallback's is marked for the cloud unless both the local
      search and the discovery behind it allowed it. */
  lemma EligibleMeansBothAllowed(cfg: Config, asked: seq<Asked>)
    requires asked != [] && AnswerTo(cfg, asked).source != "fallback"
    ensures exists k: nat, sent ::
              && k < |asked| && asked[k].key == asked[|asked| - 1].key && AskedFor(asked[k].key.0, asked[k].key.1, sent)
              && (AnswerTo(cfg, asked).cloudEligible <==> asked[k].b.search(sent, asked[k].key.2).1 && asked[k].b.discover(asked[k].key.0).1)
  {
    EveryAnswerWasSearched(cfg, asked);
    var key, r := asked[|asked| - 1].key, AnswerTo(cfg, asked);
    var k: nat :| FoundAt(asked, k, key, r);
    var sent :| AskedFor(key.0, key.1, sent) && PutTogether(asked[k].b, key, sent, r);
  }

  // ----- asking again -----

  lemma {:induction false} FindAfterOthers(others: seq<Entry>, e: Entry)
    requires forall x :: x in others ==> x.key != e.key
    ensures Find(others + [e], e.key) == Some(e)
  {
    if others != [] {
      assert (others + [e])[1..] == others[1..] + [e];
      FindAfterOthers(others[1..], e);
    } else {
      assert others + [e] == [e];
    }
  }

  /** A usable answer is kept: asked again in time, whatever the backends would say by
      then, the same question gets the same answer. */
  lemma AskedAgainAnswersAgain(cfg: Config, cache: seq<Entry>, a: Asked, later: real, b: Backend)
    requires cfg.maxEntries > 0 && Hit(cfg, cache, a.key, a.now).None? && (cfg.ttl <= 0.0 || later - a.now <= cfg.ttl)
    requires Usable(Retrieved(cfg, cache, a.key, a.now, a.b).content)
    ensures Retrieved(cfg, AfterRetrieve(cfg, cache, a.key, a.now, a.b), a.key, later, b) == Retrieved(cfg, cache, a.key, a.now, a.b)
  {
    var e := Entry(a.key, a.now, Search(a.b, a.key));
    var others := Without(AfterGet(cfg, cache, a.key, a.now), a.key);
    var put := others + [e];
    var kept := Newest(put, cfg.maxEntries);
    if |put| > cfg.maxEntries {
      var rest := others[|put| - cfg.maxEntries..];
      assert kept == rest + [e];
      assert forall x :: x in rest ==> x in others;
      FindAfterOthers(rest, e);
    } else {
      FindAfterOthers(others, e);
    }
  }
}
