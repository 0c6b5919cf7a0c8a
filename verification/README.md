# Gestalt workframe: proofs of the core protocols

This project models the parts of the Gestalt workframe where correctness rests on
many functions or on whole runs, and proves what the code and its comments promise
of them.

- **Newsletter** (`Newsletter`, `NewsletterRuns`, `NewsletterRaces`,
  `NewsletterLabels`, `NewsletterGaps`, `NewsletterShapes`, `NewsletterProgress`,
  `NewsletterService`, `LabelNumbering`, `ApprovalToken`). Operators, drafting
  sessions and any number of dispatchers act on the issue table through guarded
  updates. `Newsletter` is the state machine, one event per atomic database step or
  external send, with the writes that an unpublish or the dispatcher's error handler
  bases on an earlier read as events of their own. A run is *timely* when each write
  that hands an issue back finds it held by nobody and nothing of it sent, and
  *steady* when the issue has no number either. `NewsletterService.Session` is the
  code of the lifecycle functions, with everybody else's events interleaved at each
  await; its `Valid()` says the table is always the result of a run of the machine, so
  the theorems about runs hold of it. There an unpublish is one step, which is always
  in time.
- **Lane resolver and router** (`ModelResolver`, `ResolverRanking`, `RouteOrdering`,
  `RoutePlacement`, `RouterDispatch`, `StableSort`). Hard filters, floors, a cost in
  reals, the share-of-best gate, four comparators; then synthesis, redealt anchors and
  the stable sort; then the walk down the routes with its circuit breakers, answered
  at once or streamed.
- **Spend and concurrency** (`SpendControl`, `SpendRuns`, `SpendBounds`,
  `SpendBlocks`, `SpendMeaning`, `SpendService`). Generation slots and the cloud
  budget gate as one machine over concurrent calls: a reservation checks, reads and
  commits under a lock, recording takes no lock.
- **Token bucket** (`RateLimiter`), **retrieval cache** (`RetrievalCache`,
  `RetrievalAnswers`) and **discovery scheduler** (`DiscoveryScheduler`).
- **Chat turn** (`ChatTurn`, `TurnAnswers`, `StreamHoldback`, `AnswerText`). The
  router calls of a turn with the provenance of every retrieved text, down to the
  routes the router may then offer, and the streaming hold-back.
- `Text` holds the string operations the others lean on.

Promises that do not hold of the code as it stands. Each has a run or an input that
breaks it and the condition under which it holds:

- *An issue is sent once.* An unpublish reads the issue and writes it later; written
  after a dispatcher has taken the issue, it hands it back to the operator, and the
  next approval sends it again. The dispatcher's own late rollback does the same.
  `NewsletterRaces.TimelyIsExact` says exactly when such a write is harmless, and
  `NewsletterGaps.SteadyIsExact` when it leaves the ship numbers without a hole.
- *A new display label is free.* Its two queries are separate; an issue that ships in
  between may make the label one that is taken, which the insert then refuses
  (`NewsletterLabels.ShipBetweenReadsIff`).
- *A USD cap is not passed.* Calls in flight may pass it together
  (`SpendBounds.CapKeptIff`); by how much is `SpendRuns.OvershootBound`.
- *Nothing is granted after an accounting block.* A reservation past its check may be
  (`SpendBlocks.BlockedGrantIff`). And the block fails open twice: a read of it that
  raises counts as no block (`SpendBlocks.BlindEntryIff`), and a failure to write it
  is swallowed, so that the next call is granted as if nothing had happened
  (`SpendBlocks.LostBlockIff`).
- *Restricted text never reaches the cloud.* It can, when one turn carries out two
  tool calls: the last retrieval alone decides for all of them
  (`ChatTurn.SafeWhateverHappensIff`). Decisions made by the orchestrator allow one
  tool call and are safe.
- *An unknown answer is never shown while streaming.* The recogniser ignores case and
  surrounding blanks, the hold-back compares letter by letter
  (`StreamHoldback.UnknownAnswerHiddenIff`).
- *Cleaning up idle buckets is harmless.* Only when the age covers a full refill
  (`RateLimiter.CleanupUnobservableIff`).

Six more facts a maintainer may not expect. Benching a model under `auto` or `fast`
keeps the survivors and their order, but it may lower the gate and let others in among
them (`ModelResolver.FailSidewaysExactIff` says exactly when). The claim of a due
issue looks at its status and not at its schedule, so a stale due list may send an
issue that was unpublished and approved again before its new time. An issue that is
already hidden is returned unchanged by a further unpublish, so one that was approved
again stays approved (`NewsletterService.Session.UnpublishIssue`). A reservation that
fails after its commit is refused and stays counted (`SpendRuns.OnlyCommitsCount`). A
discovery that apologises spoils a usable local text it is appended to, and the
fallback is asked (`RetrievalAnswers.JoinedUsable`). And a cloud provider's exception
makes `chat` try the next route and count an error; in `stream_chat` it ends the turn
and counts none (`RouterDispatch.Judge`).

Clocks, random ids, mail, LinkedIn, providers, the model catalog, search backends and
poll results are parameters or oracles. Prices, token levels and indices are reals.

## Model

| member | source | states |
|---|---|---|
| NewsletterRuns.NothingIsSentTwice | gestaltworkframe/core/newsletter.py:1056-1237 | over every interleaving of operators, drafting sessions and dispatchers with stale due lists, crashes and deletions: each send loop starts at most once, each subscriber gets an issue at most once, each post and publication happens at most once, as long as every write that hands an issue back comes in time (NewsletterRaces.TimelyIsExact says that this is necessary) |
| NewsletterRaces.TimelyIsExact | gestaltworkframe/core/newsletter.py:969-1023 | after an unpublish that saw the issue approved, or the late rollback, is written at any point of any run, some run of timely steps sends something twice if and only if a dispatcher held the issue or something of it had left the system |
| NewsletterRaces.ReturnedTooLate | gestaltworkframe/core/newsletter.py:1102-1124 | the run that starts a second send loop, from every state in which the issue is handed back too late |
| NewsletterGaps.SteadyIsExact | gestaltworkframe/core/newsletter.py:141-187 | the same for the numbers: after such a write some steady run without deletions leaves a number below the maximum unused if and only if a dispatcher held the issue or it had a number already |
| NewsletterRuns.EmittedIsNumbered | gestaltworkframe/core/newsletter.py:1102-1237 | an issue that still exists and of which anything left the system carries a ship number and is sending or sent; a sent issue was mailed to exactly the subscribers its send loop started with, posted and published; in steady runs only such issues are numbered |
| NewsletterRuns.CancelSilences | gestaltworkframe/core/newsletter.py:865-905 | after a successful cancel nothing of the issue is ever emitted until somebody approves it again, whatever due lists still name it |
| NewsletterRuns.ExhaustedRetriesSendNothing | gestaltworkframe/core/newsletter.py:157-187 | the third collision leaves the issue awaiting approval, unscheduled, in steady runs unnumbered, and silent until the next approval |
| NewsletterRuns.StepKeeps | gestaltworkframe/core/newsletter.py:807-1237 | every atomic step keeps the protocol invariant: one holder per issue, log and row agree, nothing logged twice |
| NewsletterRuns.ClaimKeeps | gestaltworkframe/core/newsletter.py:1067-1085 | the guarded claim gives the issue to one dispatcher only, and only when nothing of it was ever emitted |
| NewsletterRuns.CommitKeeps | gestaltworkframe/core/newsletter.py:157-187 | storing a number, colliding, and the last-collision rollback each keep the invariant |
| NewsletterRuns.OperatorSteps | gestaltworkframe/core/newsletter.py:807-1023 | no operator action disturbs an issue that is being sent, except a write that hands it back too late |
| NewsletterRuns.AtomicIsTimely | gestaltworkframe/core/newsletter.py:969-1023 | when every unpublish and every rollback is one step, every hand-back comes in time |
| NewsletterRuns.SteadyIsTimely | gestaltworkframe/core/newsletter.py:969-1023 | a run that never hands back a numbered issue late is in time for the sends too |
| NewsletterLabels.ShipNumbersGapless | gestaltworkframe/core/newsletter.py:131-165 | in runs without deletions ship numbers are at all times exactly 1..n, each carried by one issue, although dispatchers read the maximum and commit in separate steps |
| NewsletterLabels.NextLabelIsFree | gestaltworkframe/core/newsletter.py:226-255 | in steady runs without deletions the label made by the second query is carried by no issue, draft, skipped or shipped, if nothing has shipped since the first query |
| NewsletterLabels.ShipBetweenReadsIff | gestaltworkframe/core/newsletter.py:241-255 | when an issue ships between the two queries, the label is already carried by another issue if and only if the issue that shipped was of that epoch and not its newest |
| NewsletterLabels.CurrentEpochIsDense | gestaltworkframe/core/newsletter.py:226-255 | the letters used in the current epoch are exactly the first count, and no unshipped label belongs to a later epoch |
| NewsletterLabels.StaleUnpublishSendsTwice | gestaltworkframe/core/newsletter.py:969-1023 | the counterexample without any deletion: an unpublish that read approved and writes once the send loop has begun, or while a numbered dispatcher is about to begin it, leads to a second send loop |
| NewsletterLabels.CommitLabelStep | gestaltworkframe/core/newsletter.py:157-174 | a commit of a number read earlier extends 1..n by exactly one or changes nothing |
| NewsletterLabels.InsertLabelStep | gestaltworkframe/core/newsletter.py:320-345 | inserting a label read earlier, perhaps in an older epoch, is refused by UNIQUE or keeps the current epoch dense |
| NewsletterProgress.UndisturbedDispatchSends | gestaltworkframe/core/newsletter.py:1056-1237 | left alone, the dispatch of an approved issue takes number last+1, mails every subscriber once in order, posts, publishes and ends as sent |
| NewsletterProgress.ReachableDispatchSends | gestaltworkframe/core/newsletter.py:1056-1237 | this holds in every state that any run reaches, deletions and late hand-backs included |
| NewsletterShapes.NextNumberIsFree | gestaltworkframe/core/newsletter.py:131-165 | in every state of every run the number after the largest is carried by no issue, neither as ship number nor as label, so the first attempt to number an undisturbed issue succeeds |
| NewsletterService.Session.ApproveAndSchedule | gestaltworkframe/core/newsletter.py:807-862 | succeeds exactly from draft or awaiting approval; the send time is the requested one when it lies ahead and half an hour from now otherwise; nothing else of the row and no other row changes; not found and refused change nothing |
| NewsletterService.Session.CancelScheduledSend | gestaltworkframe/core/newsletter.py:865-905 | succeeds exactly while approved with a send time still ahead; then the issue awaits approval again, unscheduled, and is unheld, unsent and silent |
| NewsletterService.Session.UnpublishIssue | gestaltworkframe/core/newsletter.py:969-1023 | hides sent and sending issues and changes nothing else of them, hides and withdraws approved ones, refuses the others; an issue already hidden is returned unchanged even if it was approved again |
| NewsletterService.Session.DeleteIssue | gestaltworkframe/core/newsletter.py:908-966 | removes exactly the named issue in any status |
| NewsletterService.Session.NextShipNumber | gestaltworkframe/core/newsletter.py:131-138 | one more than the largest number in the table |
| NewsletterService.Session.NextDisplayLabel | gestaltworkframe/core/newsletter.py:226-255 | two queries with others in between: the epoch the first one found, with the letter the second one counts; free when nothing was deleted and nothing shipped in between |
| NewsletterService.Session.InsertDraft | gestaltworkframe/core/newsletter.py:313-345 | the two label queries, others in between, and an insert that lands exactly on a label nobody carries; otherwise that very label is taken |
| NewsletterService.Session.CreateEmptyIssue | gestaltworkframe/core/newsletter.py:293-345 | three attempts; success is a new unnumbered, unscheduled draft with a unique label |
| NewsletterService.Session.ComposePendingIssue | gestaltworkframe/core/newsletter.py:501-567 | without finds and without force a skipped row that still takes a label, otherwise an issue awaiting approval |
| NewsletterService.Session.ClaimIssue | gestaltworkframe/core/newsletter.py:1067-1085 | taken exactly when the row is approved, whatever its schedule says now |
| NewsletterService.Session.CommitShipNumber | gestaltworkframe/core/newsletter.py:157-187 | assigned, vanished or collided, with the exact state each leaves |
| NewsletterService.Session.AssignShipNumberWithRetry | gestaltworkframe/core/newsletter.py:141-187 | with others acting between every read and commit: numbered and ready, or withdrawn, unsent and silent |
| NewsletterService.Session.SendLoop | gestaltworkframe/core/newsletter.py:1126-1163 | mails the whole list in order whatever becomes of the issue meanwhile |
| NewsletterService.Session.DispatchIssue | gestaltworkframe/core/newsletter.py:1056-1237 | completed means sent, numbered and delivered to exactly the subscribers read for this issue; failed with the row still there means withdrawn before anything was sent |
| NewsletterService.Session.DispatchScheduledIssues | gestaltworkframe/core/newsletter.py:1026-1053 | every entry of the due list, stale or not, is counted once as dispatched or failed; with nobody else acting none fails, every issue whose time has come is sent, numbered and out on every channel, and every other issue is left as it was with nothing of it sent |
| NewsletterService.DueIdsIff | gestaltworkframe/core/newsletter.py:1036-1043 | the due list holds exactly the rows that are approved and scheduled and whose send time is not after now, each once |
| LabelNumbering.ComputeLabelLetter | gestaltworkframe/core/newsletter.py:109-128 | the loop terminates with the specified suffix and rejects exactly the negative indices |
| LabelNumbering.IndexOfLetter | gestaltworkframe/core/newsletter.py:109-128 | decoding a suffix gives its index back |
| LabelNumbering.LetterOfIndex | gestaltworkframe/core/newsletter.py:109-128 | every non-empty lower-case string is the suffix of its index, so the two maps are inverse bijections |
| LabelNumbering.LetterOrder | gestaltworkframe/core/newsletter.py:109-128 | suffixes are issued in shortlex order |
| LabelNumbering.ComputeEpoch | gestaltworkframe/core/newsletter.py:215-224 | the scan over the leading digits computes the specified epoch |
| LabelNumbering.LabelParses | gestaltworkframe/core/newsletter.py:215-255 | a label parses back to its epoch and suffix |
| LabelNumbering.LabelInjective | gestaltworkframe/core/newsletter.py:226-255 | different epoch and index never share a label |
| LabelNumbering.ShippedLabelHasNoEpoch | gestaltworkframe/core/newsletter.py:163-224 | a shipped issue's bare number belongs to no epoch |
| ApprovalToken.Base64RoundTrip | gestaltworkframe/core/newsletter.py:1509-1516 | decoding undoes encoding for every byte string, padding stripped and restored (section 5 of RFC 4648, padding in section 3.2) |
| ApprovalToken.Base64Injective | gestaltworkframe/core/newsletter.py:1509-1516 | different byte strings have different encodings |
| ApprovalToken.MadeTokenSplits | gestaltworkframe/core/newsletter.py:1519-1530 | a made token always splits into exactly its three parts |
| ApprovalToken.MadeTokenVerifies | gestaltworkframe/core/newsletter.py:1519-1549 | a made token verifies to the same issue id until its expiry and is expired after it |
| ApprovalToken.PayloadInjective | gestaltworkframe/core/newsletter.py:1519-1524 | different (id, expiry) pairs have different signed payloads |
| ApprovalToken.NoSplicing | gestaltworkframe/core/newsletter.py:1527-1549 | a signature made for one (id, expiry) is never accepted for another id or later expiry, if the MAC does not collide on that payload |
| ModelResolver.ResolveLane | gestaltworkframe/core/model_resolver.py:224-371 | the loops over the catalog, the floors, the gate and the ranking compute the specified resolution (which that is, in costs and margins: ResolverRanking) |
| ModelResolver.ScreenModel | gestaltworkframe/core/model_resolver.py:247-330 | the sequence of hard filters gives the first failing reason in the source's order |
| ModelResolver.ScreenIffQualifies | gestaltworkframe/core/model_resolver.py:247-330 | a model clears the screen exactly when it meets every requirement of the lane |
| ModelResolver.BeforeIsWeakOrder | gestaltworkframe/core/model_resolver.py:181-221 | each tier's comparator is a strict weak order |
| ModelResolver.BeforeIsTotal | gestaltworkframe/core/model_resolver.py:181-221 | candidates with different ids are always ordered: the id breaks every tie |
| ModelResolver.CatalogOrderIrrelevant | gestaltworkframe/core/model_resolver.py:224-371 | any permutation of a catalog with distinct ids gives the same shortlist, objective and counts, and the same rejections up to order |
| ModelResolver.ResolutionPartitionsCatalog | gestaltworkframe/core/model_resolver.py:244-354 | every catalog entry is ranked or rejected, exactly once |
| ModelResolver.GateKeepsTheBest | gestaltworkframe/core/model_resolver.py:332-354 | the share-of-best gate never empties a non-empty qualifying set |
| ModelResolver.ShortlistStaysInLane | gestaltworkframe/core/model_resolver.py:224-371 | the shortlist is in the tier's order, within its length, and every entry qualifies and passes the gate |
| ModelResolver.FailSidewaysUngated | gestaltworkframe/core/model_resolver.py:181-221 | under best and cheap, benching models gives exactly the old order without them |
| ModelResolver.FailSideways | gestaltworkframe/core/model_resolver.py:266-359 | under every tier the surviving, unbenched models of before all survive, in the same relative order |
| ModelResolver.FailSidewaysExactIff | gestaltworkframe/core/model_resolver.py:332-359 | the order is exactly the old one filtered if and only if benching did not let a model below the old bar through |
| ModelResolver.ResolutionIdsOnce | gestaltworkframe/core/model_resolver.py:359-371 | no id is shortlisted twice |
| ResolverRanking.ShortlistInTierOrder | gestaltworkframe/core/model_resolver.py:181-221 | of two shortlisted models the earlier one leads as its tier asks: auto by margin times the other's cost, then cost, then id; best by margin, then cost; cheap by cost, then margin; fast measured before unmeasured, then seconds times cost, then cost, then margin |
| ResolverRanking.ShortlistIsTheTop | gestaltworkframe/core/model_resolver.py:332-359 | a model that qualifies and is not shortlisted missed the 35 percent share of somebody's margin under auto or fast, or the list is full and everybody on it leads it |
| ResolverRanking.ShortlistMembers | gestaltworkframe/core/model_resolver.py:288-359 | everybody shortlisted is a qualifying model of the catalog that passes the share gate, with its own cost of a turn, its own margin over the declared floors and its own measured latency |
| ResolverRanking.CostIsCost | gestaltworkframe/core/model_catalog.py:129-142 | the cost of a turn is input and output at their prices, with the cached input at the cache's price when there is one |
| ResolverRanking.EveryReasonIsTrue | gestaltworkframe/core/model_resolver.py:244-354 | every rejection gives a reason that holds of a catalog model with that id |
| RouteOrdering.LLMRouter.SelectRoutes | gestaltworkframe/core/router.py:920-1031 | gate loop, capability ordering, redealing and sorting compute the specified order (which that is, aspect by aspect: RoutePlacement), and only the cache of catalog-derived routes changes |
| RouteOrdering.LLMRouter.SynthesizeCloudRoutes | gestaltworkframe/core/router.py:760-818 | the loop builds each missing route once, returns nothing at all when a winner is unreachable without a key, and leaves the cache as specified |
| RouteOrdering.LLMRouter.BaseRoute | gestaltworkframe/core/router.py:705-758 | built once, then served from the cache; absent exactly without a key |
| RouteOrdering.NothingLostNothingInvented | gestaltworkframe/core/router.py:887-1031 | the result is a permutation of the gate-passing configured routes plus the gate-passing catalog-derived ones |
| RouteOrdering.NoCloudWhenIneligible | gestaltworkframe/core/router.py:1063-1092 | no cloud route is ever returned for restricted context, without permission, under local_only or outside its response policies; never a free tier, never an open breaker |
| RouteOrdering.CatalogDerivedAreUnbenchedWinners | gestaltworkframe/core/router.py:760-872 | a catalog-derived route is a qualifying lane winner that no configured cloud route covers and no breaker has benched: synthesis never resurrects a disabled model |
| RouteOrdering.RedealPermutesPriorities | gestaltworkframe/core/router.py:985-1006 | the redealt anchors are a permutation of the cloud family's own priorities, highest to the lane's first choice |
| RouteOrdering.EqualMeritKeepsLaneOrder | gestaltworkframe/core/router.py:1011-1022 | cloud routes of equal tier, task match, tool quality and headroom keep the lane's order through the stable sort, under every strategy |
| RouteOrdering.LaneDecidesAmongEquals | gestaltworkframe/core/router.py:887-918 | among cloud routes of equal merit the better-ranked model comes first, then the aggregator before the direct provider, and unlisted models last |
| RouteOrdering.StateStaysSane | gestaltworkframe/core/router.py:705-758 | cached catalog-derived routes keep the name, model and mark they were built with |
| RoutePlacement.PrecedesIffAhead | gestaltworkframe/core/router.py:1109-1148 | of two returned routes that the strategy does not keep apart, one stands before the other exactly when its lead in base priority, cost tier, task tags, tool calling, local runtime and headroom is positive, or the lead is zero and it comes first in the profile file or the lane |
| RoutePlacement.FamiliesInTurn | gestaltworkframe/core/router.py:1014-1022 | prefer_local returns every local route before every cloud route, prefer_cloud_quality every cloud route before every local one |
| RoutePlacement.BetterFirst | gestaltworkframe/core/router.py:1109-1148 | with no lower base priority, a route that is better in one aspect and worse in none stands first: a preferred cost tier of the strategy, recommended for the task, not to be avoided, stronger tool calling, a loaded model, more headroom at the direct provider |
| RoutePlacement.TagsDecide | gestaltworkframe/core/router.py:1129-1132 | of two routes that differ only in name and tags the recommended one stands first and the one to avoid last |
| RoutePlacement.RecommendedOutweighs | gestaltworkframe/core/router.py:199-205 | a recommended route stands before one that is not, whatever their cost tiers and tools, unless base priority, runtime and headroom put it back by 450 points |
| RoutePlacement.LaneDecides | gestaltworkframe/core/router.py:887-918 | between cloud routes that lead in no aspect over each other the lane decides in its tier's numbers, margin under prefer_cloud_quality and margin per dollar otherwise; then the transport; then unlisted models, those of the catalog first |
| RoutePlacement.OwnPriority | gestaltworkframe/core/router.py:985-1012 | local routes keep their own priority, and so does everybody when no lane decides |
| RoutePlacement.OfferedIffMayServe | gestaltworkframe/core/router.py:1063-1092 | a configured route is returned exactly when it is switched on, configured, not blocked by a breaker, capable of the tools asked for, and allowed by the strategy, the policy, the context and the local runtime |
| RoutePlacement.WinnersGetRoutes | gestaltworkframe/core/router.py:760-818 | with a key every shortlisted model that no configured cloud route stands for gets a route with its tier by completion price, that tier's policies, and the task as its own exactly when the cloud family claims it; it is returned when it passes the gate |
| RoutePlacement.KeylessGetNone | gestaltworkframe/core/router.py:803-805 | without a key one shortlisted model that has no route yet leaves the turn without any catalog-derived route |
| RoutePlacement.BenchedIff | gestaltworkframe/core/router.py:859-872 | the lane leaves out exactly the models of routes with an open breaker or enough errors, configured cloud routes and catalog-derived ones |
| RoutePlacement.DerivedAreNew | gestaltworkframe/core/router.py:776-798 | a catalog-derived route is for a qualifying model that no configured cloud route stands for and whose own earlier route is not suspended |
| RouterDispatch.Dispatcher.Chat | gestaltworkframe/core/router.py:1545-1595 | tries the ordered routes until one answers; what was tried, who served, and the breakers and error counts left behind are the specified ones |
| RouterDispatch.Dispatcher.Walk | gestaltworkframe/core/router.py:1573-1595 | the loop over the routes, with every failure recorded against its route |
| RouterDispatch.WalkFacts | gestaltworkframe/core/router.py:1573-1595 | only ordered routes are tried, the last one tried is the one that answers, nobody answers exactly when no route would |
| RouterDispatch.WalkIsFirstAnswer | gestaltworkframe/core/router.py:1573-1595 | the first route that answers serves; exactly the routes before it that raised are held to account, in order |
| RouterDispatch.Dispatcher.StreamChat | gestaltworkframe/core/router.py:1459-1543 | chunks go out as they come; the texts, the routes asked, the exception, the breakers and the error counts are the specified ones |
| RouterDispatch.OneVoice | gestaltworkframe/core/router.py:1470-1543 | a streamed answer is one route's from first word to last, or the apology when nobody spoke; a stream that broke off is never continued by another route; only ordered routes are asked, the speaker last |
| RouterDispatch.SpeakerIsFirst | gestaltworkframe/core/router.py:1496-1543 | the first route that was neither skipped nor broke off before its first word speaks, all of its non-empty chunks; a cloud route's exception and a stream broken off after its first word end the turn in an exception; exactly the streams that broke off are held to account |
| RouterDispatch.Dispatcher.ResetBreakerIfHealthy | gestaltworkframe/core/router.py:1298-1306 | if the primary's breaker is open and it is healthy, the breaker and the overall count are cleared, and the breakers and counts of the primary's routes and of nobody else; otherwise nothing changes |
| RouterDispatch.Dispatcher.RecordRouteFailure | gestaltworkframe/core/router.py:1308-1316 | one more error overall and for the route, its breaker opened at the threshold |
| RouterDispatch.ErrorsAddUp | gestaltworkframe/core/router.py:1308-1316 | a route's error count grows by exactly its failures |
| RouterDispatch.PenaltiesKeepBreakers | gestaltworkframe/core/router.py:1308-1316 | exactly the routes that reached the threshold have an open breaker, and recording failures closes none |
| RouterDispatch.FailedRouteStaysOut | gestaltworkframe/core/router.py:1249-1316 | a route that reached the threshold is offered to no later request of any kind until its breaker is reset |
| RouterDispatch.BreakersHold | gestaltworkframe/core/router.py:1298-1595 | over any sequence of turns, answered at once or streamed, recoveries included, the open breakers are exactly those of the routes that reached the threshold, and such a route is offered to no further request |
| RouterDispatch.PrimaryBreakerHolds | gestaltworkframe/core/router.py:1291-1316 | over any sequence of turns the primary's breaker is open only if the errors since its last recovery reached the threshold, and is open once one of its routes alone reached it |
| RouterDispatch.LocalTurnStaysLocal | gestaltworkframe/core/router.py:1459-1595 | whatever fails, a request that must stay local is sent to no cloud route, streamed or not |
| SpendRuns.SlotsConserved | gestaltworkframe/core/router.py:1173-1209 | at all times the three counters count the slots held, total = local + cloud, within every limit, and giving a slot back never meets the clamp at zero |
| SpendRuns.OvershootBound | gestaltworkframe/core/cloud_budget.py:290-339 | spending recorded in the window plus what is in flight never exceeds cap + (k-1)*c, where k is the most cloud calls the policy lets run at once (the smallest of its three limits), although usage is recorded between another reservation's read and commit |
| SpendMeaning.WindowsNeverOverrun | gestaltworkframe/core/cloud_budget.py:290-339 | if at most k cloud calls may run at once and none is estimated above c, what the rows of this day cost never exceeds the daily cap by more than (k-1)*c, and the same for the month |
| SpendMeaning.UsedIsSpent | gestaltworkframe/core/cloud_budget.py:432-456 | the gate's two sums are what the rows of this very day and of this month cost |
| SpendMeaning.CostIsAmount | gestaltworkframe/core/cloud_budget.py:383-403 | a call costs its input tokens at the input price and its output tokens at the output price, per million, the route's own prices where they are known and the configured ones otherwise |
| SpendMeaning.AdmittedIff | gestaltworkframe/core/cloud_budget.py:352-381 | a reservation goes on exactly when fewer calls than each positive call cap were granted under its session, day and month, and the price of what it asks for still fits each positive dollar cap |
| SpendMeaning.LetInIff | gestaltworkframe/core/cloud_budget.py:144-166 | it gets to the counters exactly when spilling over is on, the token caps that a dollar cap brings into force hold, the store is ready and no block is seen |
| SpendMeaning.RefusalsAreTrue | gestaltworkframe/core/cloud_budget.py:341-381 | whatever reason a reservation is refused for holds of the state it was refused in |
| SpendBounds.BoundIsReached | gestaltworkframe/core/cloud_budget.py:352-381 | for every k an honest run comes within one estimate of that bound, and reaches it when the cap is a whole number of estimates |
| SpendBounds.CapKeptIff | gestaltworkframe/core/cloud_budget.py:352-381 | the cap alone is kept by every honest run if and only if the policy lets at most one cloud call run at a time |
| SpendRuns.CostWithinEstimate | gestaltworkframe/core/cloud_budget.py:383-403 | billing no more tokens than were reserved costs no more than the estimate, with the same price fallback on both sides |
| SpendRuns.CountersConserved | gestaltworkframe/core/cloud_budget.py:290-339 | each session, day and month counter counts the grants under its key, each table adds up to all grants, and no positive call cap is ever passed |
| SpendRuns.OnlyCommitsCount | gestaltworkframe/core/cloud_budget.py:290-339 | only a commit counts, and adds one to exactly its three counters: a refused reservation and one that fails before its commit leave them all alone, one that fails after it has been counted |
| SpendRuns.BlockStopsGrants | gestaltworkframe/core/cloud_budget.py:405-421 | after an accounting block and until it is cleared the reservations granted are at most the one already past its check, if there is one, and those whose own read of the block raised |
| SpendBlocks.BlockedGrantIff | gestaltworkframe/core/cloud_budget.py:290-339 | in a blocked state some honest run that does not clear the block, and in which every read of it succeeds, still grants if and only if a reservation is about to commit, or is about to read with room under its call caps and an estimate that fits an unspent window |
| SpendBlocks.BlindEntryIff | gestaltworkframe/core/cloud_budget.py:405-430 | a call that finds the gate blocked and its lock free can be granted if and only if its own read of the block raised, nothing else refuses it, and it has room under its call caps and an estimate that fits an unspent window |
| SpendBlocks.LostBlockIff | gestaltworkframe/core/cloud_budget.py:409-421 | after a response that cannot be accounted for (usage missing or negative, or a store that fails) the next reservation within the caps is refused if the block could be written and granted if the failure to write it was swallowed |
| SpendRuns.LockStep | gestaltworkframe/core/cloud_budget.py:144-166 | exactly the holder of the lock is between its check and its commit |
| SpendService.LLMRouter.TryStartGeneration | gestaltworkframe/core/router.py:1173-1190 | starts exactly while fewer calls run than both overall limits and than the limit of its kind, and takes one slot of that kind |
| SpendService.LLMRouter.FinishGeneration | gestaltworkframe/core/router.py:1192-1201 | gives exactly one slot back; the clamps never act |
| SpendService.LLMRouter.Reserve | gestaltworkframe/core/cloud_budget.py:144-166 | the source's order of refusals; a refusal changes nothing, a grant adds one to its three counters, a store failure sets the block exactly when that write succeeds and counts the call exactly when it came after the commit; the block is seen exactly when its read succeeds |
| SpendService.LLMRouter.RecordUsage | gestaltworkframe/core/cloud_budget.py:208-269 | exactly one usage row, of today and with the price of the tokens billed, is written when recording succeeds or fails after the row was committed; missing, invalid or failing accounting blocks the gate exactly when the block's write succeeds |
| SpendService.LLMRouter.SetAccountingBlock | gestaltworkframe/core/cloud_budget.py:409-421 | sets the block exactly when its write succeeds, and reports nothing either way |
| SpendService.LLMRouter.CloudChat | gestaltworkframe/core/router.py:1329-1396 | reserve, call, record: nothing is answered while the gate is disabled, nor while it is blocked unless the call's read of the block raised, and the reservation is settled on every path |
| SpendService.LLMRouter.CloudRoute | gestaltworkframe/core/router.py:1562-1592 | a call that gets a slot gives it back on every path, answered, refused, failed or raised; one that gets none changes nothing |
| ChatTurn.TurnExposesIff | gestaltworkframe/core/chat_orchestrator.py:212-321 | a turn sends restricted retrieval text in a call that may be served by the cloud exactly when its tool loop retrieved restricted text and then, last, unrestricted text with the cloud allowed |
| ChatTurn.SafeWhateverHappensIff | gestaltworkframe/core/chat_orchestrator.py:478-549 | a decision is safe in every run, streamed or not, if and only if it cannot search twice in a tool loop with the cloud allowed; one tool call per turn is always safe |
| ChatTurn.OneToolCallIsSafe | gestaltworkframe/core/chat_orchestrator.py:517-549 | with at most one tool call per turn nothing restricted is exposed |
| ChatTurn.LeakExposes | gestaltworkframe/core/chat_orchestrator.py:517-549 | the concrete run that exposes when two searches are possible |
| ChatTurn.RestrictedTextStaysLocal | gestaltworkframe/core/router.py:1063-1092 | for a decision that cannot search twice, no call of the turn that carries restricted text is offered or dispatched to a cloud route, whatever routes are configured, synthesized or failing |
| ChatTurn.UnsafeCallReachesCloud | gestaltworkframe/core/router.py:1545-1595 | the condition is sharp: a call that is not safe is served by a cloud route when that is what is configured |
| ChatTurn.ChatTurnOrchestrator.Run | gestaltworkframe/core/chat_orchestrator.py:212-278 | calls and answer are the specification's (which answer that is: TurnAnswers), refusals have their fixed texts, and restricted text stays away from the cloud for every decision that cannot search twice |
| TurnAnswers.RetryAnswers | gestaltworkframe/core/chat_orchestrator.py:702-728 | the answer is the cloud's stripped reply exactly when there was none, the cloud was allowed and not yet used, it served the retry and that is not blank; the old answer otherwise; the call insists on the cloud and carries the conversation and a note |
| TurnAnswers.BufferedAnswers | gestaltworkframe/core/chat_orchestrator.py:245-278 | without the tool loop the one reply to the conversation with what the backend found is retried, guided, graded and repaired, in that order and under the decision the retrieval leaves |
| TurnAnswers.LoopAnswers | gestaltworkframe/core/chat_orchestrator.py:227-244 | with the tool loop the answer that is retried, graded and repaired is the limit's text, the model's own reply, the backend's reply when the model retrieved nothing and the decision requires it, or the closing reply, which counts as unknown when it asks for tools again |
| TurnAnswers.AcceptedOrRepaired | gestaltworkframe/core/chat_orchestrator.py:227-278 | a turn ends in a text that was graded adequate with the turn's retrieval, or in the repair of one that was refused, with the grade that refused it |
| TurnAnswers.LoopAsks | gestaltworkframe/core/chat_orchestrator.py:478-549 | the loop first sends the conversation, with tools exactly when one is offered and allowed, and closes with what the backend found or with the result of every carried-out call in order, the cloud withdrawn for a restricted retrieval |
| TurnAnswers.StreamedAnswers | gestaltworkframe/core/chat_orchestrator.py:352-384 | a streamed answer that is none is replaced by the guidance ungraded; any other is graded, and a second opinion counts when it differs from what was shown |
| ChatTurn.ChatTurnOrchestrator.RunModelToolLoop | gestaltworkframe/core/chat_orchestrator.py:478-549 | call limit, no tool call, backend miss and final answer follow the specification, calls included |
| ChatTurn.ChatTurnOrchestrator.ExecuteToolCalls | gestaltworkframe/core/chat_orchestrator.py:517-525 | every result becomes a message and the last retrieval stands for all of them |
| ChatTurn.ChatTurnOrchestrator.BackendAnswerAfterMiss | gestaltworkframe/core/chat_orchestrator.py:551-582 | answers only when the decision requires and allows a retrieval, and then with the cloud withdrawn for restricted text |
| ChatTurn.ChatTurnOrchestrator.RetryCloudIfUnknown | gestaltworkframe/core/chat_orchestrator.py:702-728 | text and calls are those of the specified retry (which text that is: TurnAnswers.RetryAnswers) |
| StreamHoldback.HoldBack | gestaltworkframe/core/chat_orchestrator.py:323-350 | after every chunk the text shown is the specified function of the text received |
| StreamHoldback.ShownIsNothingOrAll | gestaltworkframe/core/chat_orchestrator.py:397-420 | at every point nothing or exactly everything received has been shown, and nothing exactly while it is empty or could still become a sentinel |
| StreamHoldback.MightEmergeIff | gestaltworkframe/core/chat_orchestrator.py:397-420 | text is held exactly while some continuation turns it, left-stripped, into a sentinel |
| StreamHoldback.StaysClear | gestaltworkframe/core/chat_orchestrator.py:397-420 | text that was released never has to be held again |
| StreamHoldback.UnknownAnswerHiddenIff | gestaltworkframe/core/answer_grading.py:198-202 | an answer recognised as unknown is kept from the live output exactly when it is a sentinel to the letter after leading blanks |
| StreamHoldback.BlankAfterSentinelIsShown | gestaltworkframe/core/answer_grading.py:198-202 | the counterexample: a sentinel followed by a blank is recognised as unknown and shown live all the same |
| StreamHoldback.Conclude | gestaltworkframe/core/chat_orchestrator.py:352-394 | the whole output is the content, the content with a labelled correction, or the correction alone |
| StreamHoldback.PresentedIs | gestaltworkframe/core/chat_orchestrator.py:352-394 | the reader ends up with the answer, with the final text alone if nothing of the answer could be shown, or with the answer and the final text under its heading |
| AnswerText.UnknownIgnoresCase | gestaltworkframe/core/answer_grading.py:198-202 | an answer in other letter cases is recognised as unknown all the same |
| StreamHoldback.Stream | gestaltworkframe/core/chat_orchestrator.py:280-394 | router calls and final text are the specification's, and the pieces yielded add up to exactly what is presented |
| RateLimiter.BurstPlusRate | gestaltworkframe/core/rate_limiter.py:50-80 | over any window of any trace with a nondecreasing clock, patient clean-ups included, a client is granted at most burst + rate * length |
| RateLimiter.GrantedIffAffords | gestaltworkframe/core/rate_limiter.py:67-80 | what that bound counts as granted is what the limiter answers |
| RateLimiter.RetryAfterExact | gestaltworkframe/core/rate_limiter.py:67-80 | a denied request retried alone after a wait is granted exactly when it fits the burst and retry_after has passed |
| RateLimiter.FirstRequest | gestaltworkframe/core/rate_limiter.py:50-80 | a client not seen before is granted exactly what fits the burst and is told what the burst leaves it |
| RateLimiter.TwoRequests | gestaltworkframe/core/rate_limiter.py:53-80 | after a granted first request a second one is granted exactly when it fits the burst and both fit the burst plus what the rate earned in between |
| RateLimiter.ResetAfterExact | gestaltworkframe/core/rate_limiter.py:67-80 | after a grant the bucket is full again exactly when reset_after has passed |
| RateLimiter.CleanupUnobservableIff | gestaltworkframe/core/rate_limiter.py:82-92 | cleaning up idle buckets changes no later answer in any trace if and only if max_age * rate >= burst |
| RateLimiter.SweptAnswersAgree | gestaltworkframe/core/rate_limiter.py:53-92 | with patient clean-ups anywhere in a trace every later answer is that of the trace without them |
| RateLimiter.StatusPredicts | gestaltworkframe/core/rate_limiter.py:94-106 | the status report predicts the very next answer |
| RateLimiter.TokenBucketRateLimiter.IsAllowed | gestaltworkframe/core/rate_limiter.py:50-80 | the buckets and the answer are the specified ones |
| RateLimiter.TokenBucketRateLimiter.CleanupOldBuckets | gestaltworkframe/core/rate_limiter.py:82-92 | removes exactly the buckets older than the age and counts them |
| RateLimiter.TokenBucketRateLimiter.GetStatus | gestaltworkframe/core/rate_limiter.py:94-106 | reports the specified level without changing anything |
| RetrievalCache.CacheInvisible | gestaltworkframe/core/retrieval.py:77-115 | over a fixed backend every answer of any request sequence is the uncached search's |
| RetrievalAnswers.SearchIsSearched | gestaltworkframe/core/retrieval.py:77-115 | a search answers with the local text, the local text with the discovery after it or the discovery alone, eligible for the cloud exactly when both sides say so; with the fallback's text exactly when that is not usable and the fallback has something to say |
| RetrievalAnswers.JoinedUsable | gestaltworkframe/core/retrieval.py:35-42 | a usable text with a discovery after it is of use exactly when the discovery carries neither of the two apologies |
| RetrievalAnswers.EveryAnswerWasSearched | gestaltworkframe/core/retrieval.py:77-115 | whatever the backends do from one request to the next, every answer is one that a search for the same question gave, its own or an earlier one within the TTL |
| RetrievalAnswers.EligibleMeansBothAllowed | gestaltworkframe/core/retrieval.py:98-106 | an answer of any request sequence that is not the fallback's is eligible for the cloud exactly as the local search and the discovery behind it both said |
| RetrievalAnswers.AskedAgainAnswersAgain | gestaltworkframe/core/retrieval.py:53-68 | a usable answer is kept: asked again within the TTL, the same question gets it again, whatever the backends would say by then |
| RetrievalCache.CacheMirrorsHistory | gestaltworkframe/core/retrieval.py:53-75 | after any history the cache holds, oldest touch first, the last value put for each of its keys, never more than the maximum |
| RetrievalCache.HitIsLastPut | gestaltworkframe/core/retrieval.py:53-62 | a hit is the last value put for the key since the last clear and no older than the TTL |
| RetrievalCache.EvictsLeastRecentlyTouched | gestaltworkframe/core/retrieval.py:64-70 | a key that loses its place was touched before every key that stays, and only when the cache is full |
| RetrievalCache.KnowledgeRetriever.CacheGet | gestaltworkframe/core/retrieval.py:53-62 | hit, expiry and move-to-end as specified |
| RetrievalCache.KnowledgeRetriever.CachePut | gestaltworkframe/core/retrieval.py:64-70 | the eviction loop leaves the newest entries |
| RetrievalCache.KnowledgeRetriever.Retrieve | gestaltworkframe/core/retrieval.py:77-115 | answer and cache are those of the specified retrieval (which answer that is: RetrievalAnswers) |
| DiscoveryScheduler.Scheduler.ReconcileWatchlistSeed | gestaltworkframe/core/discovery_scheduler.py:103-184 | refused exactly for an invalid watchlist; otherwise exactly the declared rows are reconciled, and created and updated count the missing and the drifted ones |
| DiscoveryScheduler.PassMatchesSeed | gestaltworkframe/core/discovery_scheduler.py:103-184 | after a pass every declared source has a matching row that kept its polling state |
| DiscoveryScheduler.PassConverges | gestaltworkframe/core/discovery_scheduler.py:103-184 | a second pass counts (0, 0) and changes no row |
| DiscoveryScheduler.ValidateWatchlist | gestaltworkframe/kb/watchlist.py:90-134 | accepted exactly when every entry is well formed and the stripped names are distinct |
| DiscoveryScheduler.Scheduler.PatchRow | gestaltworkframe/core/discovery_scheduler.py:141-167 | field by field, drift is found exactly when the row differs from its entry |
| DiscoveryScheduler.Scheduler.SelectDueSources | gestaltworkframe/core/discovery_scheduler.py:187-208 | only active sources never polled or polled at least their interval ago, and all of them when at most 200 are active |
| DiscoveryScheduler.Scheduler.PersistFinds | gestaltworkframe/core/discovery_scheduler.py:522-600 | new counts the distinct ids not stored before, repeat the rest, and (source, external id) stays unique |
| DiscoveryScheduler.PersistedFacts | gestaltworkframe/core/discovery_scheduler.py:522-600 | storing a poll leaves every stored find's review and first sighting alone and makes exactly the poll's ids known |
| DiscoveryScheduler.PersistOneSays | gestaltworkframe/core/discovery_scheduler.py:522-600 | an unseen find becomes a row with its own fields, a title of at most 512 characters and this poll's time; a known one keeps its review and takes the time, and as a rollup the live content |
| DiscoveryScheduler.Scheduler.RecordPoll | gestaltworkframe/core/discovery_scheduler.py:603-642 | stamps the polled source with the time and either the result's status and validators and no failures, or the error cut to 1024 characters and one failure more; every other row and every declaration is left alone |
| DiscoveryScheduler.Scheduler.RunOnePass | gestaltworkframe/core/discovery_scheduler.py:211-344 | polled + failed = due = number of summaries, every due source summarised exactly once, totals those of the summaries; the table grows by the finds reported as added and by those of half-stored polls, so without such a poll by exactly the finds reported |

## Left out

- ChatTurn: answer texts, answer grades, the fallback wording and the recogniser of unknown answers are oracles, since they decide which calls are made and not what the calls carry; conversation history is assumed to hold no retrieval text.
- ChatTurn.Ask: the schema list offered to the model is reduced to whether any tool is allowed; which schemas a chat mode defines is not modelled.
- AnswerText.IsUnknown: lower case is ASCII only.
- Text.ParseInt: ASCII digits, one sign and surrounding blanks; Python's underscores and other scripts' digits are not modelled.
- ApprovalToken.MadeTokenVerifies: the MAC and UTF-8 validity are parameters; the expiry is a whole number of seconds.
- ApprovalToken.NoSplicing: assumes the MAC does not collide on the payload, which is what the keyed hash is for.
- LabelNumbering.ComputeEpoch: digits and letters are ASCII; the labels the code makes are.
- NewsletterService.Session.CommitShipNumber: the last collision and its rollback are one step, UNIQUE constraints are a guard on the commit, and other database errors are the events Halt and Abandon; the error handler's second look at the row is the event LateRollback, which a session does not make itself.
- Newsletter.Insert: slugs, subjects, notes, periods and the snapshot of finds are not modelled; neither is the tagging of finds or the stamping of published finds.
- NewsletterLabels.ShipNumbersGapless: runs with deletions are excluded, because deleting the last shipped issue frees its number.
- ModelResolver.ResolveLane: expiry dates are numbers already parsed; NaN prices are not modelled.
- RouteOrdering.LLMRouter.SelectRoutes: diagnostics and the published decision are not modelled; health, headroom, breakers and overrides are inputs of the decision.
- RouteOrdering.RedealPermutesPriorities: requires distinct catalog ids and distinct route names that do not trespass on the catalog prefix.
- RouterDispatch.Dispatcher.Chat: what becomes of each attempt is an oracle; slots and reservations are in SpendService.
- SpendBounds.CapKeptIff: for calls that the other caps let through, and for the window whose cap is the tighter one.
- SpendRuns.OvershootBound: for the plain gate, a constant configuration and a clock that does not run backwards; floating-point rounding is not modelled.
- SpendService.LLMRouter.Reserve: starts when the lock is obtained; waiting for it is not modelled, and creating the tables always succeeds unless the store is unavailable.
- SpendService.LLMRouter.CloudRoute: one route of the ladder; the loop over routes adds no step of another kind.
- MultiProviderBudgetGate, ProviderBudgetGate, alerts and session cost attribution: their accounting does not feed the global gate.
- DiscoveryScheduler.Scheduler.PersistFinds: a single scheduler, so the insert never meets a concurrent duplicate; publication, indexing and the initial review status are parameters.
- DiscoveryScheduler.Scheduler.RunOnePass: polls are taken in the order they were started; audit rows are not modelled.
- RetrievalCache.CacheInvisible: for a backend that does not change; a changing one is covered by HitIsLastPut.
- HTTP handlers, rendering, deployment configuration, key storage, retention, handoff packets and keyword classifiers: plumbing or long case lists.
