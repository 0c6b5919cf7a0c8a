/** How a turn walks down its routes: attempts, failures, circuit breakers, and
    the guarantee that a streamed answer never mixes two routes. */
module RouterDispatch {
  import opened Text
  import opened RouteOrdering
  import opened StableSort
  import MR = ModelResolver

  /** What becomes of one route when its turn comes. `Unavailable` covers a local
      endpoint that is down, a missing slot and a refused reservation. */
  datatype Try = Unavailable | Raises | Answers

  /** The same for a streamed answer: a local stream may break off. */
  datatype Piece = Skipped | Whole(text: string) | CloudRaises | Chunks(texts: seq<string>, broken: bool)

  // ----- breakers -----

  function Errors(st: State, name: string): int {
    if name in st.errors then st.errors[name] else 0
  }

  /** What one failure does to its route. */
  function Penalise(cfg: Config, st: State, r: Route): State {
    var errors := st.errors[r.name := Errors(st, r.name) + 1];
    if Errors(st, r.name) + 1 >= cfg.errorThreshold
    then st.(errors := errors, openBreakers := st.openBreakers + {r.name}, primaryBreakerOpen := st.primaryBreakerOpen || r.isPrimary)
    else st.(errors := errors)
  }

  function PenaliseAll(cfg: Config, st: State, failed: seq<Route>): State {
    if failed == [] then st
    else Penalise(cfg, PenaliseAll(cfg, st, failed[..|failed| - 1]), failed[|failed| - 1])
  }

  /** The open breakers are those of the routes that failed often enough. */
  ghost predicate BreakersOk(cfg: Config, st: State) {
    forall k :: k in st.openBreakers <==> Errors(st, k) >= cfg.errorThreshold
  }

  function PrimaryNames(routes: seq<Route>): set<string> {
    set r | r in routes && r.isPrimary :: r.name
  }

  /** `_reset_breaker_if_healthy`, when the primary answers its health check. */
  function Recovered(cfg: Config, st: State): State {
    var names := PrimaryNames(cfg.routes);
    st.(primaryBreakerOpen := false, openBreakers := st.openBreakers - names,
        errors := map k | k in st.errors.Keys + names :: if k in names then 0 else st.errors[k])
  }

  function AfterReset(cfg: Config, st: State, healthy: bool): State {
    if st.primaryBreakerOpen && healthy then Recovered(cfg, st) else st
  }

  // ----- the walk -----

  function Dispatched(outcome: Route -> Try, routes: seq<Route>): seq<Route> {
    if routes == [] then []
    else
      match outcome(routes[0])
      case Unavailable => Dispatched(outcome, routes[1..])
      case Raises => [routes[0]] + Dispatched(outcome, routes[1..])
      case Answers => [routes[0]]
  }

  /** The last route dispatched, when it answered. */
  function Served(outcome: Route -> Try, routes: seq<Route>): Option<Route> {
    if routes == [] then None
    else if outcome(routes[0]).Answers? then Some(routes[0]) else Served(outcome, routes[1..])
  }

  function Failures(outcome: Route -> Try, routes: seq<Route>): seq<Route> {
    var d := Dispatched(outcome, routes);
    if Served(outcome, routes).Some? && d != [] then d[..|d| - 1] else d
  }

  lemma {:induction false} WalkFacts(outcome: Route -> Try, routes: seq<Route>)
    ensures var d := Dispatched(outcome, routes);
            && (forall r :: r in d ==> r in routes)
            && (Served(outcome, routes).Some? ==> d != [] && Served(outcome, routes) == Some(d[|d| - 1]))
            && (forall r :: r in Failures(outcome, routes) ==> outcome(r).Raises?)
            && (Served(outcome, routes).Some? ==> outcome(Served(outcome, routes).value).Answers?)
            && (Served(outcome, routes).None? <==> forall r :: r in routes ==> !outcome(r).Answers?)
  {
    if routes != [] {
      WalkFacts(outcome, routes[1..]);
      assert routes == [routes[0]] + routes[1..];
      var d, rest := Dispatched(outcome, routes), Dispatched(outcome, routes[1..]);
      if outcome(routes[0]).Raises? && Served(outcome, routes).Some? {
        assert d[..|d| - 1] == [routes[0]] + rest[..|rest| - 1];
      }
    }
  }

  function Raised(outcome: Route -> Try): Route -> bool {
    (r: Route) => outcome(r).Raises?
  }

  /** The walk went past the first `i` routes and ended there. */
  ghost predicate WalkedTo(outcome: Route -> Try, routes: seq<Route>, i: nat) {
    && i <= |routes| && (forall j :: 0 <= j < i ==> !outcome(routes[j]).Answers?)
    && Failures(outcome, routes) == Filter(Raised(outcome), routes[..i])
    && if i < |routes| then
         && outcome(routes[i]).Answers? && Served(outcome, routes) == Some(routes[i])
         && Dispatched(outcome, routes) == Filter(Raised(outcome), routes[..i]) + [routes[i]]
       else Served(outcome, routes).None? && Dispatched(outcome, routes) == Filter(Raised(outcome), routes)
  }

  /** The first route that answers serves; those before it that raised are held to
      account, in their order, and nobody else is. */
  lemma {:induction false} WalkIsFirstAnswer(outcome: Route -> Try, routes: seq<Route>)
    ensures exists i: nat :: WalkedTo(outcome, routes, i)
  {
    if routes == [] || outcome(routes[0]).Answers? {
      assert routes[..0] == [];
      assert WalkedTo(outcome, routes, 0);
    } else {
      WalkIsFirstAnswer(outcome, routes[1..]);
      var i: nat :| WalkedTo(outcome, routes[1..], i);
      OneFurther(outcome, routes, i);
    }
  }

  lemma PrefixOfRest(p: Route -> bool, routes: seq<Route>, i: nat)
    requires routes != [] && i < |routes|
    ensures Filter(p, routes[..i + 1]) == (if p(routes[0]) then [routes[0]] else []) + Filter(p, routes[1..][..i])
    ensures Filter(p, routes) == (if p(routes[0]) then [routes[0]] else []) + Filter(p, routes[1..])
  {
    assert routes[..i + 1][0] == routes[0] && routes[..i + 1][1..] == routes[1..][..i];
  }

  lemma OneFurther(outcome: Route -> Try, routes: seq<Route>, i: nat)
    requires routes != [] && !outcome(routes[0]).Answers? && WalkedTo(outcome, routes[1..], i)
    ensures WalkedTo(outcome, routes, i + 1)
  {
    var rest := routes[1..];
    PrefixOfRest(Raised(outcome), routes, i);
    assert forall j :: 0 < j < i + 1 ==> routes[j] == rest[j - 1];
    var own, before := if outcome(routes[0]).Raises? then [routes[0]] else [], Filter(Raised(outcome), rest[..i]);
    assert Dispatched(outcome, routes) == own + Dispatched(outcome, rest);
    if i < |rest| {
      assert routes[i + 1] == rest[i];
      AnsweredLast(own, before, rest[i]);
    } else {
      assert rest[..i] == rest && routes[..i + 1] == routes;
    }
  }

  lemma AnsweredLast(own: seq<Route>, before: seq<Route>, r: Route)
    ensures own + (before + [r]) == own + before + [r]
    ensures (own + before + [r])[..|own + before + [r]| - 1] == own + before && (before + [r])[..|before + [r]| - 1] == before
  {
  }

  /** One step of the walk, from the front. */
  lemma WalkNext(outcome: Route -> Try, routes: seq<Route>, i: nat, tried: seq<Route>)
    requires i < |routes| && Dispatched(outcome, routes) == tried + Dispatched(outcome, routes[i..])
    requires Served(outcome, routes) == Served(outcome, routes[i..])
    ensures var r := routes[i];
            && (outcome(r).Answers? ==> Dispatched(outcome, routes) == tried + [r] && Served(outcome, routes) == Some(r))
            && (!outcome(r).Answers? ==>
                  && Served(outcome, routes) == Served(outcome, routes[i + 1..])
                  && Dispatched(outcome, routes) == (if outcome(r).Raises? then tried + [r] else tried) + Dispatched(outcome, routes[i + 1..]))
  {
    assert routes[i..][0] == routes[i] && routes[i..][1..] == routes[i + 1..];
  }

  lemma FailuresUpTo(outcome: Route -> Try, routes: seq<Route>, tried: seq<Route>, r: Route)
    requires Dispatched(outcome, routes) == tried + [r] && Served(outcome, routes) == Some(r)
    ensures Failures(outcome, routes) == tried
  {
    assert (tried + [r])[..|tried|] == tried;
  }

  // ----- streaming -----

  /** What the reader gets: the texts yielded, whose they are, and whether the
      stream ended in an exception; `asked` lists the routes a call was sent to and
      `failed` those held to account. */
  datatype Speech = Speech(texts: seq<string>, speaker: Option<Route>, raised: bool, asked: seq<Route>, failed: seq<Route>)

  function Said(): string -> bool {
    (t: string) => t != ""
  }

  /** One route's part in a streamed answer: it ends it, or passes it on. */
  datatype Verdict = Ends(texts: seq<string>, raised: bool, failed: bool) | Passes(failed: bool)

  function Judge(p: Piece): Verdict {
    match p
    case Skipped => Passes(false)
    case Whole(text) => Ends([text], false, false)
    case CloudRaises => Ends([], true, false)
    case Chunks(texts, broken) =>
      if !broken then Ends(Filter(Said(), texts), false, false)
      else if Filter(Said(), texts) != [] then Ends(Filter(Said(), texts), true, true)
      else Passes(true)
  }

  function If(failed: bool, r: Route): seq<Route> {
    if failed then [r] else []
  }

  function Spoken(outcome: Route -> Piece, degraded: string, routes: seq<Route>): Speech {
    if routes == [] then Speech([degraded], None, false, [], [])
    else
      match Judge(outcome(routes[0]))
      case Ends(texts, raised, failed) => Speech(texts, Some(routes[0]), raised, [routes[0]], If(failed, routes[0]))
      case Passes(failed) =>
        var rest := Spoken(outcome, degraded, routes[1..]);
        rest.(asked := If(failed, routes[0]) + rest.asked, failed := If(failed, routes[0]) + rest.failed)
  }

  /** The whole of what one route says. */
  function Voice(p: Piece): seq<string> {
    match p
    case Skipped => []
    case Whole(text) => [text]
    case CloudRaises => []
    case Chunks(texts, broken) => Filter(Said(), texts)
  }

  /** The route says nothing and lets the next one speak: it was skipped, or its stream
      broke off before the first word. */
  predicate Silent(p: Piece) {
    p.Skipped? || (p.Chunks? && p.broken && forall i :: 0 <= i < |p.texts| ==> p.texts[i] == "")
  }

  function BrokeOff(outcome: Route -> Piece): Route -> bool {
    (r: Route) => outcome(r).Chunks? && outcome(r).broken
  }

  /** `r` speaks after the streams of `before` broke off: its whole part, and the
      exception with which it ends, if it does. */
  ghost predicate SpeaksAfter(outcome: Route -> Piece, speech: Speech, before: seq<Route>, r: Route) {
    var p := outcome(r);
    && !Silent(p) && speech.speaker == Some(r) && (speech.raised <==> p.CloudRaises? || BrokeOff(outcome)(r))
    && (p.Whole? ==> speech.texts == [p.text]) && (p.CloudRaises? ==> speech.texts == [])
    && (p.Chunks? ==> speech.texts == Filter((t: string) => t != "", p.texts))
    && speech.asked == before + [r] && speech.failed == (if BrokeOff(outcome)(r) then before + [r] else before)
  }

  ghost predicate NobodySpeaks(speech: Speech, degraded: string, failed: seq<Route>) {
    speech.speaker.None? && speech.texts == [degraded] && !speech.raised && speech.asked == speech.failed == failed
  }

  /** The stream went past the first `i` routes, silent all of them, and ended there. */
  ghost predicate SpokenBy(outcome: Route -> Piece, degraded: string, routes: seq<Route>, i: nat) {
    && i <= |routes| && (forall j :: 0 <= j < i ==> Silent(outcome(routes[j])))
    && if i < |routes| then SpeaksAfter(outcome, Spoken(outcome, degraded, routes), Filter(BrokeOff(outcome), routes[..i]), routes[i])
       else NobodySpeaks(Spoken(outcome, degraded, routes), degraded, Filter(BrokeOff(outcome), routes))
  }

  function Behind(own: seq<Route>, speech: Speech): Speech {
    speech.(asked := own + speech.asked, failed := own + speech.failed)
  }

  lemma SpeaksBehind(outcome: Route -> Piece, speech: Speech, own: seq<Route>, before: seq<Route>, r: Route)
    requires SpeaksAfter(outcome, speech, before, r)
    ensures SpeaksAfter(outcome, Behind(own, speech), own + before, r)
  {
    assert own + (before + [r]) == own + before + [r];
  }

  lemma {:induction false} NothingSaid(texts: seq<string>)
    ensures Filter(Said(), texts) == [] <==> forall i :: 0 <= i < |texts| ==> texts[i] == ""
    ensures Filter((t: string) => t != "", texts) == Filter(Said(), texts)
  {
    FilterCongruent((t: string) => t != "", Said(), texts);
    if Filter(Said(), texts) == [] {
      forall i | 0 <= i < |texts| ensures texts[i] == "" {
        assert texts[i] in texts;
      }
    } else {
      assert Filter(Said(), texts)[0] in texts;
    }
  }

  lemma JudgeSays(p: Piece)
    ensures match Judge(p)
            case Passes(failed) => Silent(p) && (failed <==> p.Chunks?)
            case Ends(texts, raised, failed) =>
              && !Silent(p) && (failed <==> p.Chunks? && p.broken) && (raised <==> p.CloudRaises? || failed)
              && (p.Whole? ==> texts == [p.text]) && (p.CloudRaises? ==> texts == [])
              && (p.Chunks? ==> texts == Filter((t: string) => t != "", p.texts))
  {
    if p.Chunks? {
      NothingSaid(p.texts);
    }
  }

  /** The first route that is not silent speaks, its whole part and nobody else's; a
      cloud route's exception and a stream that breaks off after its first word end the
      turn, and exactly the streams that broke off are held to account. */
  lemma {:induction false} SpeakerIsFirst(outcome: Route -> Piece, degraded: string, routes: seq<Route>)
    ensures exists i: nat :: SpokenBy(outcome, degraded, routes, i)
  {
    if routes == [] {
      assert SpokenBy(outcome, degraded, routes, 0);
    } else {
      JudgeSays(outcome(routes[0]));
      if Silent(outcome(routes[0])) {
        var rest := routes[1..];
        SpeakerIsFirst(outcome, degraded, rest);
        var i: nat :| SpokenBy(outcome, degraded, rest, i);
        SilentFirst(outcome, degraded, routes, i);
      } else {
        assert routes[..0] == [] && [] + [routes[0]] == [routes[0]];
        assert SpokenBy(outcome, degraded, routes, 0);
      }
    }
  }

  lemma SilentPasses(outcome: Route -> Piece, degraded: string, routes: seq<Route>)
    requires routes != [] && Silent(outcome(routes[0]))
    ensures Spoken(outcome, degraded, routes) == Behind(If(BrokeOff(outcome)(routes[0]), routes[0]), Spoken(outcome, degraded, routes[1..]))
  {
    JudgeSays(outcome(routes[0]));
  }

  lemma SilentFirst(outcome: Route -> Piece, degraded: string, routes: seq<Route>, i: nat)
    requires routes != [] && Silent(outcome(routes[0])) && SpokenBy(outcome, degraded, routes[1..], i)
    ensures SpokenBy(outcome, degraded, routes, i + 1)
  {
    SilentPasses(outcome, degraded, routes);
    PrefixOfRest(BrokeOff(outcome), routes, i);
    var rest, own := routes[1..], If(BrokeOff(outcome)(routes[0]), routes[0]);
    assert forall j :: 0 < j < i + 1 ==> routes[j] == rest[j - 1];
    if i < |rest| {
      assert routes[i + 1] == rest[i];
      SpeaksBehind(outcome, Spoken(outcome, degraded, rest), own, Filter(BrokeOff(outcome), rest[..i]), rest[i]);
    }
  }

  lemma JudgeIsVoice(p: Piece)
    ensures var v := Judge(p);
            && Voice(p) == (if v.Ends? then v.texts else [])
            && (v.failed ==> p.Chunks? && p.broken) && (v.Ends? ==> !p.Skipped?)
  {
  }

  lemma {:induction false} SpeakerSpeaks(outcome: Route -> Piece, degraded: string, routes: seq<Route>)
    ensures var speech := Spoken(outcome, degraded, routes);
            && (speech.speaker.Some? ==> speech.speaker.value in routes && speech.texts == Voice(outcome(speech.speaker.value)))
            && (speech.speaker.None? ==> speech.texts == [degraded] && !speech.raised && forall r :: r in routes ==> Voice(outcome(r)) == [])
  {
    if routes != [] {
      SpeakerSpeaks(outcome, degraded, routes[1..]);
      JudgeIsVoice(outcome(routes[0]));
      assert routes == [routes[0]] + routes[1..];
    }
  }

  lemma SpeakerWasAsked(outcome: Route -> Piece, speech: Speech, before: seq<Route>, r: Route, routes: seq<Route>)
    requires SpeaksAfter(outcome, speech, before, r) && r in routes
    requires forall x :: x in before ==> x in routes && BrokeOff(outcome)(x)
    ensures forall x :: x in speech.failed ==> x in speech.asked && outcome(x).Chunks? && outcome(x).broken
    ensures forall x :: x in speech.asked ==> x in routes && !outcome(x).Skipped?
    ensures speech.asked != [] && speech.asked[|speech.asked| - 1] == r
  {
  }

  lemma FailedWereAsked(outcome: Route -> Piece, degraded: string, routes: seq<Route>)
    ensures var speech := Spoken(outcome, degraded, routes);
            && (forall r :: r in speech.failed ==> r in speech.asked && outcome(r).Chunks? && outcome(r).broken)
            && (forall r :: r in speech.asked ==> r in routes && !outcome(r).Skipped?)
            && (speech.speaker.Some? ==> speech.asked != [] && speech.asked[|speech.asked| - 1] == speech.speaker.value)
  {
    SpeakerIsFirst(outcome, degraded, routes);
    var i: nat :| SpokenBy(outcome, degraded, routes, i);
    if i < |routes| {
      SpeakerWasAsked(outcome, Spoken(outcome, degraded, routes), Filter(BrokeOff(outcome), routes[..i]), routes[i], routes);
    }
  }

  /** A streamed answer is one route's alone, from its first word to its last, or
      the apology when nobody said anything; a stream that broke off after its
      first word is never continued by another route. */
  lemma OneVoice(outcome: Route -> Piece, degraded: string, routes: seq<Route>)
    ensures var speech := Spoken(outcome, degraded, routes);
            && (speech.speaker.Some? ==> speech.speaker.value in routes && speech.texts == Voice(outcome(speech.speaker.value)))
            && (speech.speaker.None? ==> speech.texts == [degraded] && !speech.raised && forall r :: r in routes ==> Voice(outcome(r)) == [])
            && (forall r :: r in speech.failed ==> r in speech.asked && outcome(r).Chunks? && outcome(r).broken)
            && (forall r :: r in speech.asked ==> r in routes && !outcome(r).Skipped?)
            && (speech.speaker.Some? ==> speech.asked != [] && speech.asked[|speech.asked| - 1] == speech.speaker.value)
  {
    SpeakerSpeaks(outcome, degraded, routes);
    FailedWereAsked(outcome, degraded, routes);
  }

  /** The whole speech is the rest of it, with the failures so far in front: up to
      here only failed routes were asked. */
  predicate Held(whole: Speech, failed: seq<Route>, rest: Speech) {
    whole == rest.(asked := failed + rest.asked, failed := failed + rest.failed)
  }

  lemma SpokenNext(outcome: Route -> Piece, degraded: string, routes: seq<Route>, i: nat, failed: seq<Route>)
    requires i < |routes|
    requires Held(Spoken(outcome, degraded, routes), failed, Spoken(outcome, degraded, routes[i..]))
    ensures match Judge(outcome(routes[i]))
            case Ends(texts, raised, f) =>
              Spoken(outcome, degraded, routes) == Speech(texts, Some(routes[i]), raised, failed + [routes[i]], failed + If(f, routes[i]))
            case Passes(f) =>
              Held(Spoken(outcome, degraded, routes), failed + If(f, routes[i]), Spoken(outcome, degraded, routes[i + 1..]))
  {
    assert routes[i..][0] == routes[i] && routes[i..][1..] == routes[i + 1..];
    if Judge(outcome(routes[i])).Passes? {
      var f, rest := If(Judge(outcome(routes[i])).failed, routes[i]), Spoken(outcome, degraded, routes[i + 1..]);
      HeldOn(Spoken(outcome, degraded, routes), failed, f, rest);
    }
  }

  lemma HeldOn(whole: Speech, failed: seq<Route>, f: seq<Route>, rest: Speech)
    requires Held(whole, failed, rest.(asked := f + rest.asked, failed := f + rest.failed))
    ensures Held(whole, failed + f, rest)
  {
    assert failed + (f + rest.failed) == failed + f + rest.failed;
    assert failed + (f + rest.asked) == failed + f + rest.asked;
  }

  function Tripped(cfg: Config, st: State, errors: nat): State {
    if errors >= cfg.errorThreshold then st.(primaryBreakerOpen := true) else st
  }


  /** One call of `chat` or of `stream_chat`, with everything it cannot know in
      advance. */
  datatype Turn =
    | Chatted(req: Request, healthy: bool, outcome: Route -> Try)
    | Streamed(req: Request, healthy: bool, piece: Route -> Piece, degraded: string)

  /** What one turn leaves to the next: the router's state and its overall count of
      errors, which only a streamed turn looks at. */
  datatype Standing = Standing(st: State, errors: nat)

  function Refreshed(cfg: Config, s: Standing, healthy: bool): Standing {
    Standing(AfterReset(cfg, s.st, healthy), if s.st.primaryBreakerOpen && healthy then 0 else s.errors)
  }

  function Blamed(cfg: Config, s: Standing, failed: seq<Route>): Standing {
    Standing(PenaliseAll(cfg, s.st, failed), s.errors + |failed|)
  }

  /** `_record_route_failure` in full. */
  function Charged(cfg: Config, s: Standing, r: Route): Standing {
    Standing(Penalise(cfg, s.st, r), s.errors + 1)
  }

  lemma BlamedNext(cfg: Config, s: Standing, failed: seq<Route>, f: bool, r: Route)
    ensures Blamed(cfg, s, failed + If(f, r)) == if f then Charged(cfg, Blamed(cfg, s, failed), r) else Blamed(cfg, s, failed)
  {
    assert failed + [] == failed;
    assert (failed + [r])[..|failed|] == failed;
  }

  /** The apology of a streamed turn may trip the primary's breaker. */
  function Heard(cfg: Config, s: Standing, speech: Speech): Standing {
    var after := Blamed(cfg, s, speech.failed);
    if speech.speaker.Some? then after else after.(st := Tripped(cfg, after.st, after.errors))
  }

  function AfterTurn(cfg: Config, s: Standing, t: Turn): Standing {
    var s0 := Refreshed(cfg, s, t.healthy);
    var ordered, s1 := OrderedRoutes(cfg, s0.st, t.req), s0.(st := StateAfter(cfg, s0.st, t.req));
    match t
    case Chatted(_, _, outcome) => Blamed(cfg, s1, Failures(outcome, ordered))
    case Streamed(_, _, piece, degraded) => Heard(cfg, s1, Spoken(piece, degraded, ordered))
  }

  class Dispatcher {
    const router: LLMRouter
    var errorCount: nat

    constructor (router: LLMRouter)
      ensures this.router == router && errorCount == 0
    {
      this.router := router;
      errorCount := 0;
    }

    function Now(): Standing
      reads this, router
    {
      Standing(router.st, errorCount)
    }

    method ResetBreakerIfHealthy(healthy: bool)
      modifies router, this
      ensures Now() == Refreshed(router.cfg, old(Now()), healthy)
      ensures !(old(router.st.primaryBreakerOpen) && healthy) ==> Now() == old(Now())
      ensures old(router.st.primaryBreakerOpen) && healthy ==>
                && errorCount == 0 && !router.st.primaryBreakerOpen
                && forall name: string ::
                     if exists r :: r in router.cfg.routes && r.isPrimary && r.name == name
                     then name !in router.st.openBreakers && Errors(router.st, name) == 0
                     else (name in router.st.openBreakers <==> name in old(router.st.openBreakers))
                          && Errors(router.st, name) == Errors(old(router.st), name)
    {
      if router.st.primaryBreakerOpen && healthy {
        errorCount := 0;
        var before := router.st;
        router.st := before.(primaryBreakerOpen := false);
        var routes := router.cfg.routes;
        for i := 0 to |routes|
          modifies router`st
          invariant router.st == before.(primaryBreakerOpen := false, openBreakers := router.st.openBreakers, errors := router.st.errors)
          invariant router.st.openBreakers == before.openBreakers - PrimaryNames(routes[..i])
          invariant router.st.errors.Keys == before.errors.Keys + PrimaryNames(routes[..i])
          invariant forall k :: k in router.st.errors ==>
                      router.st.errors[k] == if k in PrimaryNames(routes[..i]) then 0 else before.errors[k]
        {
          assert routes[..i + 1] == routes[..i] + [routes[i]];
          if routes[i].isPrimary {
            assert PrimaryNames(routes[..i + 1]) == PrimaryNames(routes[..i]) + {routes[i].name};
            router.st := router.st.(openBreakers := router.st.openBreakers - {routes[i].name}, errors := router.st.errors[routes[i].name := 0]);
          } else {
            assert PrimaryNames(routes[..i + 1]) == PrimaryNames(routes[..i]);
          }
        }
        assert routes[..|routes|] == routes;
        assert router.st.errors == Recovered(router.cfg, before).errors;
      }
    }

    method RecordRouteFailure(r: Route)
      modifies router, this
      ensures Now() == Charged(router.cfg, old(Now()), r)
    {
      errorCount := errorCount + 1;
      var errors := router.st.errors[r.name := Errors(router.st, r.name) + 1];
      router.st := router.st.(errors := errors);
      if errors[r.name] >= router.cfg.errorThreshold {
        router.st := router.st.(openBreakers := router.st.openBreakers + {r.name});
        if r.isPrimary {
          router.st := router.st.(primaryBreakerOpen := true);
        }
      }
    }

    /** Down the routes until one answers; every failure is held against its route. */
    method Walk(ordered: seq<Route>, outcome: Route -> Try) returns (served: Option<Route>, tried: seq<Route>)
      modifies router, this
      ensures tried == Dispatched(outcome, ordered) && served == Served(outcome, ordered)
      ensures Now() == Blamed(router.cfg, old(Now()), Failures(outcome, ordered))
    {
      tried := [];
      for i := 0 to |ordered|
        modifies router, this
        invariant Dispatched(outcome, ordered) == tried + Dispatched(outcome, ordered[i..])
        invariant Served(outcome, ordered) == Served(outcome, ordered[i..])
        invariant Now() == Blamed(router.cfg, old(Now()), tried)
      {
        var r := ordered[i];
        WalkNext(outcome, ordered, i, tried);
        match outcome(r) {
          case Answers =>
            FailuresUpTo(outcome, ordered, tried, r);
            return Some(r), tried + [r];
          case Raises =>
            BlamedNext(router.cfg, old(Now()), tried, true, r);
            RecordRouteFailure(r);
            tried := tried + [r];
          case Unavailable =>
        }
      }
      assert tried + [] == tried;
      served := None;
    }

    /** `chat`. */
    method Chat(req: Request, healthy: bool, outcome: Route -> Try) returns (served: Option<Route>, tried: seq<Route>)
      modifies router, this
      ensures var ordered := OrderedRoutes(router.cfg, AfterReset(router.cfg, old(router.st), healthy), req);
              tried == Dispatched(outcome, ordered) && served == Served(outcome, ordered)
      ensures Now() == AfterTurn(router.cfg, old(Now()), Chatted(req, healthy, outcome))
    {
      ResetBreakerIfHealthy(healthy);
      var ordered := router.SelectRoutes(req);
      served, tried := Walk(ordered, outcome);
    }

    /** One route of a streamed answer. */
    method Speak(r: Route, piece: Piece) returns (v: Verdict)
      modifies router, this
      ensures v == Judge(piece)
      ensures Now() == if v.failed then Charged(router.cfg, old(Now()), r) else old(Now())
    {
      match piece {
        case Skipped =>
          v := Passes(false);
        case Whole(text) =>
          v := Ends([text], false, false);
        case CloudRaises =>
          v := Ends([], true, false);
        case Chunks(chunks, broken) =>
          var said := Relay(chunks);
          if !broken {
            return Ends(said, false, false);
          }
          RecordRouteFailure(r);
          v := if said != [] then Ends(said, true, true) else Passes(true);
      }
    }

    method SpeakInTurn(ordered: seq<Route>, outcome: Route -> Piece, degraded: string)
      returns (ghost speech: Speech, texts: seq<string>, raised: bool, asked: seq<Route>)
      modifies router, this
      ensures speech == Spoken(outcome, degraded, ordered)
      ensures texts == speech.texts && raised == speech.raised && asked == speech.asked
      ensures Now() == Heard(router.cfg, old(Now()), speech)
    {
      speech := Spoken(outcome, degraded, ordered);
      asked := [];
      for i := 0 to |ordered|
        modifies router, this
        invariant Held(speech, asked, Spoken(outcome, degraded, ordered[i..]))
        invariant Now() == Blamed(router.cfg, old(Now()), asked)
      {
        SpokenNext(outcome, degraded, ordered, i, asked);
        var v := Speak(ordered[i], outcome(ordered[i]));
        BlamedNext(router.cfg, old(Now()), asked, v.failed, ordered[i]);
        if v.Ends? {
          return speech, v.texts, v.raised, asked + [ordered[i]];
        }
        if v.failed {
          asked := asked + [ordered[i]];
        } else {
          assert asked + [] == asked;
        }
      }
      assert ordered[|ordered|..] == [] && asked + [] == asked;
      assert speech == Speech([degraded], None, false, asked, asked);
      if errorCount >= router.cfg.errorThreshold {
        router.st := router.st.(primaryBreakerOpen := true);
      }
      return speech, [degraded], false, asked;
    }

    /** `stream_chat`: chunks go out as they come; once a word is out no other
        route is asked. */
    method StreamChat(req: Request, healthy: bool, outcome: Route -> Piece, degraded: string)
      returns (texts: seq<string>, raised: bool, asked: seq<Route>)
      modifies router, this
      ensures var st0 := AfterReset(router.cfg, old(router.st), healthy);
              var speech := Spoken(outcome, degraded, OrderedRoutes(router.cfg, st0, req));
              texts == speech.texts && raised == speech.raised && asked == speech.asked
      ensures Now() == AfterTurn(router.cfg, old(Now()), Streamed(req, healthy, outcome, degraded))
    {
      ResetBreakerIfHealthy(healthy);
      var ordered := router.SelectRoutes(req);
      ghost var speech;
      speech, texts, raised, asked := SpeakInTurn(ordered, outcome, degraded);
    }

    method Relay(chunks: seq<string>) returns (said: seq<string>)
      ensures said == Filter(Said(), chunks)
    {
      said := [];
      for i := 0 to |chunks|
        invariant said == Filter(Said(), chunks[..i])
      {
        FilterNext(Said(), chunks, i);
        if chunks[i] != "" {
          said := said + [chunks[i]];
        }
      }
      assert chunks[..|chunks|] == chunks;
    }
  }

  // ----- what a failure costs -----

  lemma {:induction false} PenaltiesKeepBreakers(cfg: Config, st: State, failed: seq<Route>)
    requires BreakersOk(cfg, st)
    ensures BreakersOk(cfg, PenaliseAll(cfg, st, failed))
    ensures forall k :: k in st.openBreakers ==> k in PenaliseAll(cfg, st, failed).openBreakers
  {
    if failed != [] {
      PenaltiesKeepBreakers(cfg, st, failed[..|failed| - 1]);
    }
  }

  lemma RecoveryKeepsBreakers(cfg: Config, st: State)
    requires BreakersOk(cfg, st) && cfg.errorThreshold > 0
    ensures BreakersOk(cfg, Recovered(cfg, st))
  {
  }

  function AfterTurns(cfg: Config, s: Standing, turns: seq<Turn>): Standing {
    if turns == [] then s else AfterTurn(cfg, AfterTurns(cfg, s, turns[..|turns| - 1]), turns[|turns| - 1])
  }

  lemma HearingKeepsBreakers(cfg: Config, s: Standing, speech: Speech)
    requires BreakersOk(cfg, s.st)
    ensures BreakersOk(cfg, Heard(cfg, s, speech).st)
  {
    PenaltiesKeepBreakers(cfg, s.st, speech.failed);
  }

  lemma RefreshKeepsBreakers(cfg: Config, s: Standing, healthy: bool)
    requires BreakersOk(cfg, s.st) && cfg.errorThreshold > 0
    ensures BreakersOk(cfg, Refreshed(cfg, s, healthy).st)
  {
    RecoveryKeepsBreakers(cfg, s.st);
  }

  lemma TurnKeepsBreakers(cfg: Config, s: Standing, t: Turn)
    requires BreakersOk(cfg, s.st) && cfg.errorThreshold > 0
    ensures BreakersOk(cfg, AfterTurn(cfg, s, t).st)
  {
    RefreshKeepsBreakers(cfg, s, t.healthy);
    var s0 := Refreshed(cfg, s, t.healthy);
    var ordered, s1 := OrderedRoutes(cfg, s0.st, t.req), s0.(st := StateAfter(cfg, s0.st, t.req));
    match t
    case Chatted(_, _, outcome) => PenaltiesKeepBreakers(cfg, s1.st, Failures(outcome, ordered));
    case Streamed(_, _, piece, degraded) => HearingKeepsBreakers(cfg, s1, Spoken(piece, degraded, ordered));
  }

  /** Over any sequence of turns, streamed or not, recoveries included, the open
      breakers are exactly those of the routes that reached the threshold, and such a
      route is offered to no further request. */
  lemma {:induction false} BreakersHold(cfg: Config, s: Standing, turns: seq<Turn>)
    requires BreakersOk(cfg, s.st) && cfg.errorThreshold > 0
    ensures var st' := AfterTurns(cfg, s, turns).st;
            && BreakersOk(cfg, st')
            && forall r: Route, req: Request :: Errors(st', r.name) >= cfg.errorThreshold ==> r !in OrderedRoutes(cfg, st', req)
  {
    if turns != [] {
      var n := |turns| - 1;
      BreakersHold(cfg, s, turns[..n]);
      TurnKeepsBreakers(cfg, AfterTurns(cfg, s, turns[..n]), turns[n]);
    }
    var st' := AfterTurns(cfg, s, turns).st;
    forall r: Route, req: Request | Errors(st', r.name) >= cfg.errorThreshold ensures r !in OrderedRoutes(cfg, st', req) {
      FailedRouteStaysOut(cfg, st', req, r);
    }
  }

  /** A route whose failures reached the threshold is offered to no later request,
      under any policy, until its breaker is reset. */
  lemma FailedRouteStaysOut(cfg: Config, st: State, req: Request, r: Route)
    requires BreakersOk(cfg, st) && Errors(st, r.name) >= cfg.errorThreshold > 0
    ensures r !in OrderedRoutes(cfg, st, req)
  {
    NoCloudWhenIneligible(cfg, st, req);
  }

  function Named(name: string): Route -> bool {
    (r: Route) => r.name == name
  }

  lemma OneMoreError(cfg: Config, st: State, r: Route, name: string)
    ensures Errors(Penalise(cfg, st, r), name) == Errors(st, name) + if Named(name)(r) then 1 else 0
  {
  }

  lemma {:induction false} ErrorsAddUp(cfg: Config, st: State, failed: seq<Route>, name: string)
    ensures Errors(PenaliseAll(cfg, st, failed), name) == Errors(st, name) + |Filter(Named(name), failed)|
  {
    if failed != [] {
      var n := |failed| - 1;
      ErrorsAddUp(cfg, st, failed[..n], name);
      OneMoreError(cfg, PenaliseAll(cfg, st, failed[..n]), failed[n], name);
      FilterNext(Named(name), failed, n);
      assert failed[..n + 1] == failed;
    }
  }

  /** Whatever fails, a turn that must stay local is dispatched to no cloud route. */
  lemma LocalTurnStaysLocal(cfg: Config, st: State, req: Request, outcome: Route -> Try, piece: Route -> Piece, degraded: string)
    requires !req.contextEligible || !req.cloudAllowed
    ensures forall r :: r in Dispatched(outcome, OrderedRoutes(cfg, st, req)) ==> !r.IsCloud()
    ensures forall r :: r in Spoken(piece, degraded, OrderedRoutes(cfg, st, req)).asked ==> !r.IsCloud()
  {
    NoCloudWhenIneligible(cfg, st, req);
    WalkFacts(outcome, OrderedRoutes(cfg, st, req));
    OneVoice(piece, degraded, OrderedRoutes(cfg, st, req));
  }

  // ----- the primary's breaker -----

  /** The primary's breaker is open only after enough errors overall, and it is open
      once a route of the primary has enough of its own. */
  ghost predicate PrimaryOk(cfg: Config, s: Standing) {
    && (s.st.primaryBreakerOpen ==> s.errors >= cfg.errorThreshold)
    && forall r :: r in cfg.routes && r.isPrimary ==>
         Errors(s.st, r.name) <= s.errors && (Errors(s.st, r.name) >= cfg.errorThreshold ==> s.st.primaryBreakerOpen)
  }

  /** No route made from the catalog is the primary's. */
  ghost predicate MadeSane(cache: map<string, Route>) {
    CacheSane(cache) && forall k :: k in cache ==> !cache[k].isPrimary
  }

  /** A configured route, or one made from the catalog. */
  ghost predicate Known(cfg: Config, r: Route) {
    r in cfg.routes || (!r.isPrimary && "catalog:" <= r.name)
  }

  lemma ChargeKeepsPrimary(cfg: Config, s: Standing, r: Route)
    requires WellConfigured(cfg) && PrimaryOk(cfg, s) && Known(cfg, r)
    ensures PrimaryOk(cfg, Charged(cfg, s, r))
  {
    var s' := Charged(cfg, s, r);
    forall x | x in cfg.routes && x.isPrimary
      ensures Errors(s'.st, x.name) <= s'.errors && (Errors(s'.st, x.name) >= cfg.errorThreshold ==> s'.st.primaryBreakerOpen)
    {
      OneMoreError(cfg, s.st, r, x.name);
      if r in cfg.routes && r != x {
        NamesApart(cfg.routes, r, x);
      }
    }
    assert r in cfg.routes && r.isPrimary ==> Errors(s.st, r.name) <= s.errors;
  }

  lemma {:induction false} BlameKeepsPrimary(cfg: Config, s: Standing, failed: seq<Route>)
    requires WellConfigured(cfg) && PrimaryOk(cfg, s) && forall r :: r in failed ==> Known(cfg, r)
    ensures PrimaryOk(cfg, Blamed(cfg, s, failed))
  {
    if failed != [] {
      var n := |failed| - 1;
      BlameKeepsPrimary(cfg, s, failed[..n]);
      ChargeKeepsPrimary(cfg, Blamed(cfg, s, failed[..n]), failed[n]);
      BlamedNext(cfg, s, failed[..n], true, failed[n]);
      assert failed[..n] + [failed[n]] == failed;
    }
  }

  lemma RefreshKeepsPrimary(cfg: Config, s: Standing, healthy: bool)
    requires PrimaryOk(cfg, s) && cfg.errorThreshold > 0
    ensures PrimaryOk(cfg, Refreshed(cfg, s, healthy))
  {
    assert forall r :: r in cfg.routes && r.isPrimary ==> r.name in PrimaryNames(cfg.routes);
  }

  lemma {:induction false} RememberMade(cache: map<string, Route>, winners: seq<MR.Candidate>)
    requires MadeSane(cache)
    ensures MadeSane(Remember(cache, winners))
  {
    if winners != [] {
      RememberMade(cache, winners[..|winners| - 1]);
    }
  }

  lemma {:induction false} MadeAreNotPrimary(cache: map<string, Route>, task: Option<string>, claimed: bool, winners: seq<MR.Candidate>)
    requires MadeSane(cache)
    ensures forall r :: r in FlatMap(RefreshOne(cache, task, claimed), winners) ==> !r.isPrimary && "catalog:" <= r.name
  {
    if winners != [] {
      MadeAreNotPrimary(cache, task, claimed, winners[1..]);
      var one := RefreshOne(cache, task, claimed)(winners[0]);
      assert forall r :: r in one ==> !r.isPrimary && "catalog:" <= r.name;
    }
  }

  lemma OrderedAreKnown(cfg: Config, st: State, req: Request)
    requires MadeSane(st.synthesized)
    ensures forall r :: r in OrderedRoutes(cfg, st, req) ==> Known(cfg, r)
  {
    NothingLostNothingInvented(cfg, st, req);
    var routes, passing := Filter(Gate(cfg, st, req), cfg.routes), SynthesizedPassing(cfg, st, req);
    var winners := Filter(UncoveredIn(cfg), Shortlist(cfg, st, req.task));
    var cloud := Filter(Cloud(), routes);
    RememberMade(st.synthesized, winners);
    MadeAreNotPrimary(CacheAfter(UncoveredIn(cfg), cfg.apiKey, st.synthesized, Shortlist(cfg, st, req.task)), req.task,
                      CloudClaimsTask(cloud, req.task), winners);
    assert multiset(OrderedRoutes(cfg, st, req)) == multiset(routes + passing);
    SameElements(OrderedRoutes(cfg, st, req), routes + passing);
  }

  lemma {:induction false} BlameKeepsCache(cfg: Config, st: State, failed: seq<Route>)
    ensures PenaliseAll(cfg, st, failed).synthesized == st.synthesized
  {
    if failed != [] {
      BlameKeepsCache(cfg, st, failed[..|failed| - 1]);
    }
  }

  lemma SelectionKeepsPrimary(cfg: Config, s: Standing, req: Request)
    requires WellConfigured(cfg) && MadeSane(s.st.synthesized) && PrimaryOk(cfg, s)
    ensures PrimaryOk(cfg, s.(st := StateAfter(cfg, s.st, req))) && MadeSane(StateAfter(cfg, s.st, req).synthesized)
  {
    RememberMade(s.st.synthesized, Filter(UncoveredIn(cfg), Shortlist(cfg, s.st, req.task)));
  }

  lemma FailuresKeepPrimary(cfg: Config, s: Standing, failed: seq<Route>)
    requires WellConfigured(cfg) && MadeSane(s.st.synthesized) && PrimaryOk(cfg, s) && forall r :: r in failed ==> Known(cfg, r)
    ensures PrimaryOk(cfg, Blamed(cfg, s, failed)) && MadeSane(Blamed(cfg, s, failed).st.synthesized)
  {
    BlameKeepsPrimary(cfg, s, failed);
    BlameKeepsCache(cfg, s.st, failed);
  }

  lemma TurnKeepsPrimary(cfg: Config, s: Standing, t: Turn)
    requires WellConfigured(cfg) && MadeSane(s.st.synthesized) && PrimaryOk(cfg, s) && cfg.errorThreshold > 0
    ensures PrimaryOk(cfg, AfterTurn(cfg, s, t)) && MadeSane(AfterTurn(cfg, s, t).st.synthesized)
  {
    RefreshKeepsPrimary(cfg, s, t.healthy);
    var s0 := Refreshed(cfg, s, t.healthy);
    var ordered, s1 := OrderedRoutes(cfg, s0.st, t.req), s0.(st := StateAfter(cfg, s0.st, t.req));
    OrderedAreKnown(cfg, s0.st, t.req);
    SelectionKeepsPrimary(cfg, s0, t.req);
    match t
    case Chatted(_, _, outcome) =>
      WalkFailedInRoutes(outcome, ordered);
      FailuresKeepPrimary(cfg, s1, Failures(outcome, ordered));
    case Streamed(_, _, piece, degraded) =>
      FailedWereAsked(piece, degraded, ordered);
      HearingKeepsPrimary(cfg, s1, Spoken(piece, degraded, ordered));
  }

  lemma HearingKeepsPrimary(cfg: Config, s: Standing, speech: Speech)
    requires WellConfigured(cfg) && MadeSane(s.st.synthesized) && PrimaryOk(cfg, s) && forall r :: r in speech.failed ==> Known(cfg, r)
    ensures PrimaryOk(cfg, Heard(cfg, s, speech)) && MadeSane(Heard(cfg, s, speech).st.synthesized)
  {
    FailuresKeepPrimary(cfg, s, speech.failed);
  }

  lemma WalkFailedInRoutes(outcome: Route -> Try, routes: seq<Route>)
    ensures forall r :: r in Failures(outcome, routes) ==> r in routes
  {
    WalkFacts(outcome, routes);
  }

  /** Over any sequence of turns the primary's breaker is open only if the errors since
      its last recovery reached the threshold, and it is open as soon as one of its
      routes alone reached it. */
  lemma {:induction false} PrimaryBreakerHolds(cfg: Config, s: Standing, turns: seq<Turn>)
    requires WellConfigured(cfg) && MadeSane(s.st.synthesized) && PrimaryOk(cfg, s) && cfg.errorThreshold > 0
    ensures var s' := AfterTurns(cfg, s, turns); PrimaryOk(cfg, s') && MadeSane(s'.st.synthesized)
  {
    if turns != [] {
      var n := |turns| - 1;
      PrimaryBreakerHolds(cfg, s, turns[..n]);
      TurnKeepsPrimary(cfg, AfterTurns(cfg, s, turns[..n]), turns[n]);
    }
  }
}
