/** The knowledge retriever and its LRU + TTL cache. The cache is an ordered
    dictionary, oldest touch first; the search backends are functions. */
module RetrievalCache {
  import opened Text

  type Key = (string, string, int)

  datatype RetrievalResult =
    RetrievalResult(toolName: string, query: string, content: string, source: string, cloudEligible: bool)

  datatype Entry = Entry(key: Key, cachedAt: real, value: RetrievalResult)

  datatype Config = Config(maxEntries: int, ttl: real)

  /** The searches behind one retrieval. `fallback` is absent when no fallback
      URL is configured, and yields no text when the request fails. */
  datatype Backend = Backend(
    search: (string, int) -> (string, bool),
    discover: string -> (string, bool),
    fallback: Option<(string, string, int) -> Option<string>>)

  const WORKFLOW_PATTERN_SEARCH := "workflow_pattern_search"

  predicate Usable(content: string) {
    && Strip(content) != ""
    && !Contains(Lower(content), "no relevant information found")
    && !Contains(Lower(content), "error searching knowledge base")
  }

  function SearchQuery(query: string, toolName: string): string {
    var lowered := Lower(query);
    if toolName == WORKFLOW_PATTERN_SEARCH
       && (Contains(lowered, "bundle") || Contains(lowered, "import") || Contains(lowered, "plug in") || Contains(lowered, "template"))
    then query + " workflow examples import bundle ready to import "
         + "workflow libraries INDEX.md README preserved import compatibility source URLs"
    else query
  }

  /** Local search and approved discoveries merged; either can make the whole
      result ineligible for cloud models. */
  function LocalResult(b: Backend, key: Key): RetrievalResult {
    var (query, toolName, limit) := key;
    var (content, localEligible) := b.search(SearchQuery(query, toolName), limit);
    var (found, foundEligible) := b.discover(query);
    var eligible := localEligible && foundEligible;
    if found == "" then RetrievalResult(toolName, query, content, "local", eligible)
    else if Usable(content) then RetrievalResult(toolName, query, content + "\n\n" + found, "local+discovery", eligible)
    else RetrievalResult(toolName, query, found, "discovery", eligible)
  }

  function FallbackResult(b: Backend, key: Key): Option<RetrievalResult> {
    if b.fallback.None? then None
    else
      match b.fallback.value(key.0, key.1, key.2)
      case Some(content) => if Strip(content) == "" then None else Some(RetrievalResult(key.1, key.0, content, "fallback", true))
      case None => None
  }

  /** The uncached retrieval of one key. */
  function Search(b: Backend, key: Key): RetrievalResult {
    var result := LocalResult(b, key);
    if Usable(result.content) || b.fallback.None? then result
    else match FallbackResult(b, key)
      case Some(r) => r
      case None => result
  }

  // ----- the cache as a value -----

  ghost predicate DistinctKeys(cache: seq<Entry>) {
    forall i, j :: 0 <= i < j < |cache| ==> cache[i].key != cache[j].key
  }

  function Find(cache: seq<Entry>, key: Key): (r: Option<Entry>)
    ensures r.Some? ==> r.value in cache && r.value.key == key
    ensures r.None? ==> forall e :: e in cache ==> e.key != key
  {
    if cache == [] then None
    else if cache[0].key == key then Some(cache[0])
    else Find(cache[1..], key)
  }

  function Without(cache: seq<Entry>, key: Key): (r: seq<Entry>)
    ensures forall e :: e in r <==> e in cache && e.key != key
    ensures |r| <= |cache|
  {
    if cache == [] then []
    else
      assert cache == [cache[0]] + cache[1..];
      if cache[0].key == key then Without(cache[1..], key)
      else [cache[0]] + Without(cache[1..], key)
  }

  predicate Expired(cfg: Config, e: Entry, now: real) {
    cfg.ttl > 0.0 && now - e.cachedAt > cfg.ttl
  }

  function Hit(cfg: Config, cache: seq<Entry>, key: Key, now: real): Option<RetrievalResult> {
    match Find(cache, key)
    case Some(e) => if Expired(cfg, e, now) then None else Some(e.value)
    case None => None
  }

  function AfterGet(cfg: Config, cache: seq<Entry>, key: Key, now: real): seq<Entry> {
    match Find(cache, key)
    case Some(e) => if Expired(cfg, e, now) then Without(cache, key) else Without(cache, key) + [e]
    case None => cache
  }

  function Newest(cache: seq<Entry>, n: nat): seq<Entry> {
    if |cache| > n then cache[|cache| - n..] else cache
  }

  function AfterPut(cfg: Config, cache: seq<Entry>, key: Key, value: RetrievalResult, now: real): seq<Entry> {
    if cfg.maxEntries <= 0 then cache
    else Newest(Without(cache, key) + [Entry(key, now, value)], cfg.maxEntries)
  }

  // ----- the retriever -----

  class KnowledgeRetriever {
    const config: Config
    var cache: seq<Entry>

    constructor (config: Config)
      ensures this.config == config && cache == []
    {
      this.config := config;
      cache := [];
    }

    method CacheGet(key: Key, now: real) returns (hit: Option<RetrievalResult>)
      modifies this
      ensures hit == Hit(config, old(cache), key, now)
      ensures cache == AfterGet(config, old(cache), key, now)
    {
      var entry := Find(cache, key);
      if entry.None? {
        return None;
      }
      if config.ttl > 0.0 && now - entry.value.cachedAt > config.ttl {
        cache := Without(cache, key);
        return None;
      }
      cache := Without(cache, key) + [entry.value];
      return Some(entry.value.value);
    }

    method CachePut(key: Key, value: RetrievalResult, now: real)
      modifies this
      ensures cache == AfterPut(config, old(cache), key, value, now)
    {
      if config.maxEntries <= 0 {
        return;
      }
      cache := Without(cache, key) + [Entry(key, now, value)];
      ghost var full := cache;
      while |cache| > config.maxEntries
        invariant |cache| <= |full| && cache == full[|full| - |cache|..]
        invariant |cache| < |full| ==> |cache| >= config.maxEntries
      {
        cache := cache[1..];
      }
    }

    method ClearCache()
      modifies this
      ensures cache == []
    {
      cache := [];
    }

    method Retrieve(query: string, toolName: string, limit: int, now: real, b: Backend) returns (r: RetrievalResult)
      modifies this
      ensures var key := (Strip(query), toolName, limit);
              r == Retrieved(config, old(cache), key, now, b) && cache == AfterRetrieve(config, old(cache), key, now, b)
    {
      var cleanQuery := Strip(query);
      var key := (cleanQuery, toolName, limit);
      var cached := CacheGet(key, now);
      if cached.Some? {
        return cached.value;
      }
      var (content, localEligible) := b.search(SearchQuery(cleanQuery, toolName), limit);
      var (found, foundEligible) := b.discover(cleanQuery);
      var source := "local";
      if found != "" {
        if Usable(content) {
          content := content + "\n\n" + found;
          source := "local+discovery";
        } else {
          content := found;
          source := "discovery";
        }
      }
      var result := RetrievalResult(toolName, cleanQuery, content, source, localEligible && foundEligible);
      if Usable(result.content) || b.fallback.None? {
        if Usable(result.content) {
          CachePut(key, result, now);
        }
        return result;
      }
      var fallback := FallbackResult(b, key);
      var final := if fallback.Some? then fallback.value else result;
      if Usable(final.content) {
        CachePut(key, final, now);
      }
      return final;
    }
  }

  function Retrieved(cfg: Config, cache: seq<Entry>, key: Key, now: real, b: Backend): RetrievalResult {
    match Hit(cfg, cache, key, now)
    case Some(r) => r
    case None => Search(b, key)
  }

  function AfterRetrieve(cfg: Config, cache: seq<Entry>, key: Key, now: real, b: Backend): seq<Entry> {
    var looked := AfterGet(cfg, cache, key, now);
    if Hit(cfg, cache, key, now).Some? || !Usable(Search(b, key).content) then looked
    else AfterPut(cfg, looked, key, Search(b, key), now)
  }

  // ----- refinement: over a fixed backend the cache is invisible -----

  datatype Request = Request(key: Key, now: real)

  function Results(cfg: Config, cache: seq<Entry>, requests: seq<Request>, b: Backend): seq<RetrievalResult>
    decreases requests
  {
    if requests == [] then []
    else [Retrieved(cfg, cache, requests[0].key, requests[0].now, b)]
         + Results(cfg, AfterRetrieve(cfg, cache, requests[0].key, requests[0].now, b), requests[1..], b)
  }

  ghost predicate Faithful(cache: seq<Entry>, b: Backend) {
    forall e :: e in cache ==> e.value == Search(b, e.key)
  }

  lemma StaysFaithful(cfg: Config, cache: seq<Entry>, key: Key, now: real, b: Backend)
    requires Faithful(cache, b)
    ensures Retrieved(cfg, cache, key, now, b) == Search(b, key)
    ensures Faithful(AfterRetrieve(cfg, cache, key, now, b), b)
  {
    assert Faithful(AfterGet(cfg, cache, key, now), b);
    PutFaithful(cfg, AfterGet(cfg, cache, key, now), key, Search(b, key), now, b);
  }

  lemma PutFaithful(cfg: Config, cache: seq<Entry>, key: Key, value: RetrievalResult, now: real, b: Backend)
    requires Faithful(cache, b) && value == Search(b, key)
    ensures Faithful(AfterPut(cfg, cache, key, value, now), b)
  {
  }

  lemma {:induction false} CacheInvisibleFrom(cfg: Config, cache: seq<Entry>, requests: seq<Request>, b: Backend)
    requires Faithful(cache, b)
    ensures |Results(cfg, cache, requests, b)| == |requests|
    ensures forall i :: 0 <= i < |requests| ==> Results(cfg, cache, requests, b)[i] == Search(b, requests[i].key)
    decreases requests
  {
    if requests != [] {
      var key, now := requests[0].key, requests[0].now;
      var next := AfterRetrieve(cfg, cache, key, now, b);
      StaysFaithful(cfg, cache, key, now, b);
      CacheInvisibleFrom(cfg, next, requests[1..], b);
    }
  }

  /** Whatever the request times and the cache size, every answer is the one the
      uncached search gives. */
  lemma CacheInvisible(cfg: Config, requests: seq<Request>, b: Backend)
    ensures |Results(cfg, [], requests, b)| == |requests|
    ensures forall i :: 0 <= i < |requests| ==> Results(cfg, [], requests, b)[i] == Search(b, requests[i].key)
  {
    CacheInvisibleFrom(cfg, [], requests, b);
  }

  // ----- the cache against its history, whatever was put -----

  datatype Op = Get(key: Key, now: real) | Put(key: Key, value: RetrievalResult, now: real) | Clear

  function Apply(cfg: Config, cache: seq<Entry>, op: Op): seq<Entry> {
    match op
    case Get(key, now) => AfterGet(cfg, cache, key, now)
    case Put(key, value, now) => AfterPut(cfg, cache, key, value, now)
    case Clear => []
  }

  function CacheAfter(cfg: Config, history: seq<Op>): seq<Entry> {
    if history == [] then []
    else Apply(cfg, CacheAfter(cfg, history[..|history| - 1]), history[|history| - 1])
  }

  /** What was last put for `key` since the cache was last cleared. */
  function LastPut(history: seq<Op>, key: Key): Option<Entry> {
    if history == [] then None
    else
      match history[|history| - 1]
      case Clear => None
      case Put(k, value, now) => if k == key then Some(Entry(key, now, value)) else LastPut(history[..|history| - 1], key)
      case Get(_, _) => LastPut(history[..|history| - 1], key)
  }

  /** The position of the last put of `key` or hit on it; 0 when there is none. */
  function LastTouch(cfg: Config, history: seq<Op>, key: Key): (n: nat)
    ensures n <= |history|
  {
    if history == [] then 0
    else
      var before, op := history[..|history| - 1], history[|history| - 1];
      if (op.Put? && op.key == key) || (op.Get? && op.key == key && Hit(cfg, CacheAfter(cfg, before), key, op.now).Some?)
      then |history| else LastTouch(cfg, before, key)
  }

  /** The cache holds, oldest touch first, entries that are each the last put
      for their key, never more than the maximum. */
  ghost predicate Mirrors(cfg: Config, history: seq<Op>, cache: seq<Entry>) {
    |cache| <= (if cfg.maxEntries > 0 then cfg.maxEntries else 0) && InTouchOrder(cfg, history, cache)
  }

  ghost predicate InTouchOrder(cfg: Config, history: seq<Op>, cache: seq<Entry>) {
    && DistinctKeys(cache)
    && (forall e :: e in cache ==> LastPut(history, e.key) == Some(e))
    && (forall i, j :: 0 <= i < j < |cache| ==> LastTouch(cfg, history, cache[i].key) < LastTouch(cfg, history, cache[j].key))
  }

  lemma {:induction false} WithoutKeepsOrder(cache: seq<Entry>, key: Key, rank: Key -> int)
    requires forall i, j :: 0 <= i < j < |cache| ==> rank(cache[i].key) < rank(cache[j].key)
    ensures var r := Without(cache, key);
            forall i, j :: 0 <= i < j < |r| ==> rank(r[i].key) < rank(r[j].key)
    ensures (exists e :: e in cache && e.key == key) ==> |Without(cache, key)| < |cache|
  {
    if cache != [] {
      WithoutKeepsOrder(cache[1..], key, rank);
      var r := Without(cache[1..], key);
      forall i | 0 <= i < |r| ensures rank(cache[0].key) < rank(r[i].key) {
        assert r[i] in cache[1..];
      }
    }
  }

  /** Moving a key to the end keeps the touch order of a history one longer. */
  lemma TouchedLast(cfg: Config, history: seq<Op>, op: Op, cache: seq<Entry>, e: Entry)
    requires Mirrors(cfg, history, cache)
    requires forall k :: k != e.key ==> LastTouch(cfg, history + [op], k) == LastTouch(cfg, history, k)
    requires LastTouch(cfg, history + [op], e.key) == |history| + 1
    ensures var r := Without(cache, e.key) + [e];
            && DistinctKeys(r)
            && (forall i, j :: 0 <= i < j < |r| ==>
                  LastTouch(cfg, history + [op], r[i].key) < LastTouch(cfg, history + [op], r[j].key))
  {
    var rank := k => LastTouch(cfg, history, k);
    WithoutKeepsOrder(cache, e.key, rank);
    var w := Without(cache, e.key);
    var r := w + [e];
    forall i, j | 0 <= i < j < |r|
      ensures LastTouch(cfg, history + [op], r[i].key) < LastTouch(cfg, history + [op], r[j].key)
    {
      assert r[i] == w[i] && w[i] in w;
      if j < |w| {
        assert w[j] in w && rank(w[i].key) < rank(w[j].key);
      }
    }
  }

  lemma DropMirrors(cfg: Config, history: seq<Op>, op: Op, cache: seq<Entry>, key: Key)
    requires Mirrors(cfg, history, cache)
    requires forall k :: LastTouch(cfg, history + [op], k) == LastTouch(cfg, history, k)
    requires forall k :: LastPut(history + [op], k) == LastPut(history, k)
    ensures Mirrors(cfg, history + [op], Without(cache, key))
  {
    var rank := k => LastTouch(cfg, history, k);
    WithoutKeepsOrder(cache, key, rank);
    var w := Without(cache, key);
    forall i, j | 0 <= i < j < |w|
      ensures w[i].key != w[j].key && LastTouch(cfg, history + [op], w[i].key) < LastTouch(cfg, history + [op], w[j].key)
    {
      assert rank(w[i].key) < rank(w[j].key);
    }
  }

  lemma TouchMirrors(cfg: Config, history: seq<Op>, op: Op, cache: seq<Entry>, e: Entry)
    requires Mirrors(cfg, history, cache) && e in cache
    requires forall k :: k != e.key ==> LastTouch(cfg, history + [op], k) == LastTouch(cfg, history, k)
    requires LastTouch(cfg, history + [op], e.key) == |history| + 1
    requires forall k :: LastPut(history + [op], k) == LastPut(history, k)
    ensures Mirrors(cfg, history + [op], Without(cache, e.key) + [e])
  {
    TouchedLast(cfg, history, op, cache, e);
    WithoutKeepsOrder(cache, e.key, k => LastTouch(cfg, history, k));
  }

  lemma GetMirrors(cfg: Config, history: seq<Op>, key: Key, now: real, cache: seq<Entry>)
    requires cache == CacheAfter(cfg, history) && Mirrors(cfg, history, cache)
    ensures Mirrors(cfg, history + [Get(key, now)], AfterGet(cfg, cache, key, now))
  {
    var op := Get(key, now);
    var longer := history + [op];
    assert longer[..|longer| - 1] == history;
    match Find(cache, key) {
      case None =>
      case Some(e) =>
        if Expired(cfg, e, now) {
          DropMirrors(cfg, history, op, cache, key);
        } else {
          TouchMirrors(cfg, history, op, cache, e);
        }
    }
  }

  lemma PutInTouchOrder(cfg: Config, history: seq<Op>, key: Key, value: RetrievalResult, now: real, cache: seq<Entry>)
    requires Mirrors(cfg, history, cache)
    ensures InTouchOrder(cfg, history + [Put(key, value, now)], Without(cache, key) + [Entry(key, now, value)])
  {
    var op := Put(key, value, now);
    var longer := history + [op];
    assert longer[..|longer| - 1] == history;
    TouchedLast(cfg, history, op, cache, Entry(key, now, value));
  }

  lemma NewestInTouchOrder(cfg: Config, history: seq<Op>, cache: seq<Entry>, n: nat)
    requires InTouchOrder(cfg, history, cache)
    ensures InTouchOrder(cfg, history, Newest(cache, n)) && |Newest(cache, n)| <= n
  {
    var kept := Newest(cache, n);
    assert forall x :: x in kept ==> x in cache;
  }

  /** The mirror holds after every history. */
  lemma {:induction false} CacheMirrorsHistory(cfg: Config, history: seq<Op>)
    requires cfg.maxEntries > 0
    ensures Mirrors(cfg, history, CacheAfter(cfg, history))
  {
    if history != [] {
      var before, op := history[..|history| - 1], history[|history| - 1];
      CacheMirrorsHistory(cfg, before);
      assert before + [op] == history;
      match op {
        case Get(key, now) => GetMirrors(cfg, before, key, now, CacheAfter(cfg, before));
        case Put(key, value, now) =>
          PutInTouchOrder(cfg, before, key, value, now, CacheAfter(cfg, before));
          NewestInTouchOrder(cfg, history, Without(CacheAfter(cfg, before), key) + [Entry(key, now, value)], cfg.maxEntries);
        case Clear =>
      }
    }
  }

  /** A hit is the last value put for the key since the last clear, and it is no
      older than the TTL. */
  lemma HitIsLastPut(cfg: Config, history: seq<Op>, key: Key, now: real)
    requires cfg.maxEntries > 0
    requires Hit(cfg, CacheAfter(cfg, history), key, now).Some?
    ensures LastPut(history, key).Some?
    ensures Hit(cfg, CacheAfter(cfg, history), key, now).value == LastPut(history, key).value.value
    ensures cfg.ttl > 0.0 ==> now - LastPut(history, key).value.cachedAt <= cfg.ttl
  {
    CacheMirrorsHistory(cfg, history);
  }

  lemma CutOrKept(full: seq<Entry>, n: nat, i: nat)
    requires i < |full|
    ensures i < |full| - n || full[i] in Newest(full, n)
  {
    if |full| - n <= i && n < |full| {
      assert full[i] == Newest(full, n)[i - (|full| - n)];
    }
  }

  /** A key that loses its place to a put was touched before every key that
      stays, and at most one key loses its place. */
  lemma EvictsLeastRecentlyTouched(cfg: Config, history: seq<Op>, key: Key, value: RetrievalResult, now: real, lost: Entry, stays: Entry)
    requires cfg.maxEntries > 0
    requires var cache := CacheAfter(cfg, history);
             var next := AfterPut(cfg, cache, key, value, now);
             lost in cache && lost.key != key && lost !in next && stays in next && stays.key != key
    ensures LastTouch(cfg, history, lost.key) < LastTouch(cfg, history, stays.key)
    ensures |CacheAfter(cfg, history)| == cfg.maxEntries == |AfterPut(cfg, CacheAfter(cfg, history), key, value, now)|
  {
    CacheMirrorsHistory(cfg, history);
    var cache := CacheAfter(cfg, history);
    WithoutKeepsOrder(cache, key, k => LastTouch(cfg, history, k));
    var full := Without(cache, key) + [Entry(key, now, value)];
    var next := AfterPut(cfg, cache, key, value, now);
    assert lost in full && |full| > cfg.maxEntries;
    var i :| 0 <= i < |full| && full[i] == lost;
    var j :| 0 <= j < |next| && next[j] == stays;
    var cut := |full| - cfg.maxEntries;
    assert next[j] == full[cut + j];
    CutOrKept(full, cfg.maxEntries, i);
    assert full[i] == Without(cache, key)[i] && full[cut + j] == Without(cache, key)[cut + j];
  }
}
