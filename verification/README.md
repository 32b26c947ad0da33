# A verified model of the request governor and its readers

This project models, in Dafny, the part of the repository that decides whether, when
and under what rules a request may leave the process, and the readers whose answers
end up in a price history. It proves what the code and its comments promise, over
every interleaving, every run and every input. Where a promise turned out not to
hold of the code, the model keeps the code and proves exactly when it does hold.

Run `dafny verify dfyconfig.toml`.

## What is modelled

**The governor** (`Governor.dfy` and the `Governor*.dfy` files beside it). Any number
of requests and robots retrievals run as tasks with a program counter. Everything
between two awaits of the code is one step; between two steps any other task, the
clock, the store or an answer may come. A step is what the job at that point decides
(`AtReading` ... `AtLanding`), applied to the shared state (`Apply`): the host queues
and release lists, the breakers, the allowance rows, the robots cache, in-flight table
and landed counters. The state also carries histories no step reads: every release,
every granted unit, every departure with its answer, every hold, pause and notice. A
run (`IsRun`) starts empty and takes any steps: time passes, an operator forgets a
verdict, a request arrives, a task acts.

* `GovernorMoves` lists what a job can decide, point by point.
* `GovernorTables`, `GovernorVerdicts`, `GovernorLedger`, `GovernorNotices`,
  `GovernorPacing`, `GovernorHistory` and `GovernorWork` each keep one invariant.
* `GovernorRuns` puts them together: they hold in every state of every run.
* `GovernorSafety` and `GovernorGates` say what that means for what leaves the process:
  the boundary, the allowance, the notices, the ceiling, the cache, paused sources and
  spent periods. `GovernorPassing` goes through the gates one by one, `GovernorRecords`
  through what the breaker is told and hosts are held for. `GovernorOutcomes` and
  `GovernorReasons` say it for what a caller is told, `GovernorProgress` and
  `GovernorFairness` for when.
* `GovernorWitness` builds runs that exist: the failing half of what holds only under a
  condition.

**The parts it is built on**: the sliding-window scheduler (`HostScheduler`), the
circuit breaker (`Breaker`) and the two allowance stores (`AllowanceStores`) are
classes whose methods are proved against functions of their state, and those functions
against unpruned histories or against each other. `RobotsText` and `RobotsMatch` are the
RFC 9309 parser, matcher and rule decision; `RobotsSpelling` says what is read from every
text by how it is written, `RobotsDecision` what rules, escapes and groups mean by their
characters.

**The readers**: microdata offers on a tag list (`Microdata`), also when a closing tag is
missing (`MicrodataUnclosed`), prices as exact minor units (`Currency`, and by their
characters `PriceSpelling`) and zone-less local times (`TimeZone`).

**Configuration**: the start-up check against the vendors' published limits
(`Registry`), and what passing it means for every run: by the second and by the units
spent (`PublishedLimits`), and by the instants calls leave at (`PublishedDays`).

## Where the code does not do what is said of it

* `matchesPattern` (`packages/governor/src/robots-parse.ts:169-196`) reads `$` as RFC
  9309 section 2.2.3 does on every path if and only if the pattern is unanchored or has
  a `*`. An anchored literal tests the two ends of the path separately, so `/a$` also
  accepts `/a/a`.
* `normalisePath` (`packages/governor/src/robots-parse.ts:205-212`) is idempotent if and
  only if no lone `%` comes to start an escape: `%%34%31` becomes `%41`, and that `A`.
* The comment at `packages/sources/src/time-zone.ts:130-138` says a third pass cannot
  change the answer. It would, exactly for the local times a transition skips, and such
  times exist.
* The comment at `packages/extractor/src/offers.ts:450-455` says unclosed markup only
  widens an extent, which is safe. Extents do only widen. But if the tag left out stood
  in an item nested in an offer, or closed it, and was of that item's element name, the
  item swallows what the offer states up to the next tag that closes for it. Lost are
  exactly the values the offer states only there, unless, having itself widened, it reads
  them again behind its old end.
* `currencies` is documented as distinct after upper-casing
  (`packages/extractor/src/offers.ts:28-32`). Values are compared before it, so an offer
  that spells one code twice counts as having two currencies, and is ambiguous.
* A refusal "source-paused" or "allowance-exhausted" says something of the caller's source
  in every run if and only if the send it is about was for that source. A request that
  joins another source's robots retrieval (`packages/governor/src/robots.ts:196-201`)
  inherits a reason that may never have been true of its own.
* The daily half of the start-up check (`packages/sources/src/registry.ts:422-434`)
  bounds the units spent on every day of every run if and only if the allowance period
  divides the day. A period of two days with two units passes for one call a day, and
  both can leave on the first.
* The two stores agree on a call if and only if the call is one `SafeCall` describes; the
  ledger makes no other.

A request's view of landed retrievals is taken when its send resumes from the wait
(`packages/governor/src/governor.ts:519`), so "since the release" is stated from that
job on. Holds and pauses are stated from the moment they are recorded, which is after
the settlement (`packages/governor/src/governor.ts:634-647`).

## Model

| member | source | states |
|---|---|---|
| GovernorMoves.DecisionsAreLocal | packages/governor/src/governor.ts:290-331 | every job, at every await, decides only a move of the listed kinds: rounds are counted by releases, only the head of a queue is released, only a job that has just re-asked gates 3, 5 and 6 puts a request on the wire |
| GovernorRuns.InvAlways | packages/governor/src/governor.ts:508-626 | every invariant holds in every state of every run |
| GovernorSafety.NothingLeavesUnsafely | packages/governor/src/governor.ts:446-626 | in the very step a request reaches the wire its source is not paused, no recorded hold on its host runs, its unit is granted and its own, nothing has landed since it resumed, and a product fetch to a host whose delay is below the cache bound is allowed by a verdict read less than the bound ago |
| GovernorSafety.EveryFetchWasAllowed | packages/governor/src/governor.ts:551-624 | every product request that ever left to a host whose delay is below the cache bound was allowed by what an earlier request for /robots.txt of that very origin was answered with, read within the bound |
| GovernorSafety.NothingLandsSinceTheRelease | packages/governor/src/governor.ts:515-519 | between the job a send resumes in and its departure no retrieval for its origin lands |
| GovernorSafety.AllowanceIsConserved | packages/governor/src/allowance.ts:199-227 | per source and period the counter is the requests that left plus the units pending, never above the limit |
| GovernorLedger.DeparturesAreCounted | packages/governor/src/allowance.ts:199-227 | the requests counted against a period are the departures on a unit of it |
| GovernorSafety.EachUnitBacksAtMostOneSend | packages/governor/src/allowance.ts:199-279 | a unit backs exactly one departure, of its own source and period, once sent, and none while pending or given back |
| GovernorSafety.UnitsOnlyMoveOn | packages/governor/src/allowance.ts:229-279 | a unit goes from pending to sent to settled, or from pending to given back, and never changes period, owner or recorded total |
| GovernorSafety.NoNoticeTwiceOrWithoutCause | packages/governor/src/allowance.ts:237-296 | no notice is told twice; a warning only with a unit whose recorded total is at least the fraction of the limit, a stop only with one that is at least the limit |
| GovernorSafety.NoNoticeIsForgotten | packages/governor/src/allowance.ts:237-261 | with every unit of a period settled or given back, in any order, and no call in the middle of telling a notice about it, the warning has been told once if the counter is at least the fraction of the limit, and the stop if it is the limit |
| GovernorNotices.QuietMeansTold | packages/governor/src/allowance.ts:237-261 | in any state in which no unit of the period is in hand and the invariants hold, a counter of at least the fraction of the limit has been warned of, and one at the limit stopped for |
| GovernorSafety.WhenAllIsSettled | packages/governor/src/allowance.ts:229-279 | once all calls have settled the counter is exactly the requests that left, the warning has been told if it is at least the fraction of the limit and the stop if it is the limit |
| GovernorSafety.NoWindowIsOverfull | packages/governor/src/host-scheduler.ts:57-90 | in every run, every window of `intervalMs` holds at most `maxRequests` releases to the host |
| GovernorSafety.ReleasesAreApart | packages/governor/src/host-scheduler.ts:103-125 | in every run, releases to a host are at least `minDelayMs` apart, and n of them n times as much |
| GovernorSafety.ServedInCallOrder | packages/governor/src/host-scheduler.ts:63-89 | calls for a host are released in call order, each once, with at most one in the wait loop |
| GovernorSafety.OneRequestDoesLittle | packages/governor/src/governor.ts:207-207 | one request starts at most 4 retrievals, and it and they call the scheduler at most 15 times and send at most 5 times, counted in the histories |
| GovernorWork.WorkIsBounded | packages/governor/src/governor.ts:508-606 | calls and sends are bounded by the retrievals a request started, and those by its rounds |
| GovernorWork.CausesAreCounted | packages/governor/src/governor.ts:508-626 | the calls and sends charged to a request are its own and those of the retrievals it started |
| GovernorSafety.OneRetrievalAtATime | packages/governor/src/robots.ts:196-209 | at most one retrieval per origin is in flight in any reachable state |
| GovernorSafety.OnlyLandingChangesTheCache | packages/governor/src/robots.ts:212-242 | a cached verdict changes only when forgotten, or when an answered retrieval of that origin lands, in the step that moves the counter; a refused retrieval changes nothing |
| GovernorSafety.NoRetrievalWhileFresh | packages/governor/src/robots.ts:190-209 | no retrieval starts within the cache bound of a verdict that was not forgotten |
| GovernorSafety.EitherStoreWillDo | packages/governor/src/allowance.ts:175-296 | along every run the memory store would hold the same records and give the same answers as the PostgreSQL store |
| GovernorOutcomes.OutcomeIsWhatHappened | packages/governor/src/governor.ts:608-663 | a delivered or failed request left exactly once and was answered so; a refused one never left |
| GovernorReasons.RefusalsHaveCauses | packages/governor/src/governor.ts:334-430 | a request refused by gate 3, 4 or 6 was refused for a pause, a spent counter, a hold or a last round that failed, which really held at some earlier instant of its own send or of the retrieval it had waited for: a last round is the third, and it failed because a retrieval had landed, a hold ran, or the verdict had expired on a host that could bring a fresher one |
| GovernorReasons.RobotsRefusalsHaveAnswers | packages/governor/src/robots.ts:129-182 | a request refused by gate 5 was refused for what an earlier robots.txt request to its origin was answered with: as unreachable for no answer or a status outside 2xx and 4xx, as disallowed for a 2xx whose rules forbid the path |
| GovernorReasons.TrueOfCallerIffSameSource | packages/governor/src/robots.ts:196-201 | over every run, a pause or a spent allowance a caller is refused for is true of its own source if and only if the send it is about was for that source |
| GovernorReasons.RefusalIsTrueOfCaller | packages/governor/src/governor.ts:363-374 | a hold a caller is refused for held on its host, and a pause or spent allowance on its source when its own send or its own source's retrieval was refused |
| GovernorWitness.RefusedForAnothersPause | packages/governor/src/robots.ts:196-201 | a run in which a request is refused for a pause and its source is never paused |
| GovernorWitness.RefusedForAnothersAllowance | packages/governor/src/robots.ts:196-201 | a run in which a request is refused for a spent allowance and its source has none |
| GovernorGates.PausedSourceIsSilent | packages/governor/src/governor.ts:334-343 | from the moment a pause is recorded until it ends no request of its source leaves the process |
| GovernorGates.NewcomersAreTurnedAway | packages/governor/src/governor.ts:316-320 | a request that comes while its source is paused is refused in its first job, so it never queues and never causes a retrieval |
| GovernorGates.SpentPeriodIsSilent | packages/governor/src/allowance.ts:199-227 | once as many requests have left on a period as its limit allows none ever leaves on it again |
| GovernorGates.FetchesFollowTheStandard | packages/governor/src/robots.ts:56-62 | every product request that ever left was one section 2.3.1 of RFC 9309 allows after the status and body an earlier robots.txt request to its origin got, and that answer had not counted as a failure |
| GovernorPassing.DoorRefusalsIff | packages/governor/src/governor.ts:294-318 | in every run a request is refused as of an unconfigured host, or of an unknown source, if and only if it is one |
| GovernorPassing.NobodyPassesASpentPeriod | packages/governor/src/governor.ts:345-353 | in every run whoever of a metered source has passed gate 4 had been told in that very round a total below the limit |
| GovernorPassing.GateFiveIsAnswered | packages/governor/src/robots.ts:190-210 | a verdict read less than the bound ago answers gate 5 at once; otherwise a retrieval in flight is joined; otherwise one is started, for that source and origin |
| GovernorPassing.UnrefreshableIsAskedOnce | packages/governor/src/governor.ts:501-546 | where the delay is not below the cache bound, no round after the first asks gate 5 |
| GovernorPassing.NothingLeavesUnasked | packages/governor/src/governor.ts:543-546 | on any host, that one included, a product request that leaves is allowed after what an earlier robots.txt request to its origin was answered with |
| GovernorPassing.TurnComesIffPermitted | packages/governor/src/host-scheduler.ts:63-125 | in every run whoever is in the wait loop can be released exactly when the drawn delay since the last release, the ceiling over all releases and every hold recorded permit it; the delay drawn is the least one and at most the jitter more |
| GovernorPassing.TurnBeginsWithADraw | packages/governor/src/host-scheduler.ts:72-76 | the turn begins at the head of the queue with one draw, counted from that instant |
| GovernorPassing.BoundaryDecides | packages/governor/src/governor.ts:561-606 | a unit is reserved if and only if at that moment no retrieval has landed since the release, no hold runs and the verdict is inside its bound where it can be; once the store has answered the request leaves if and only if that still is so and no recorded pause runs |
| GovernorPassing.BoundaryNamesTheHold | packages/governor/src/governor.ts:383-425 | a send that gives up after its third round blames a hold if and only if one runs on its host at that moment |
| GovernorRecords.BreakerIsItsCalls | packages/governor/src/governor.ts:334-342 | in every run the breaker of a source is what the calls for gates asked and answers heard make of it, with that source's own settings or else the common ones |
| GovernorRecords.ToldWhatItHeard | packages/governor/src/governor.ts:755-763 | the breaker is told the class of the answer to the one request the call put on the wire: a failure without an answer, for a product from 400 on, for a robots.txt outside 2xx and 4xx |
| GovernorRecords.ToldOnce | packages/governor/src/governor.ts:634-647 | it is told of each call that left once, when the call is over, and not before |
| GovernorRecords.PausesAreForWhatWasHeard | packages/governor/src/governor.ts:739-748 | a step records a pause if and only if it tells of an answer with which the source's unpruned outcomes cross both thresholds, and only then goes on to tell of it |
| GovernorRecords.PausedIffRecorded | packages/governor/src/breaker.ts:53-68 | a source is paused if and only if a recorded pause of it still runs |
| GovernorRecords.HoldsAreForWhatWasAsked | packages/governor/src/governor.ts:727-737 | a step records a hold if and only if a call that is over was answered with a positive one, from that instant, and moves the end of the hold on the host to the later of the two |
| GovernorRecords.HeldAsLongAsAsked | packages/governor/src/host-scheduler.ts:92-101 | the end of the hold on a host is the latest of those recorded |
| Governor.PeriodIsTheOnlyOne | packages/governor/src/allowance.ts:142-144 | the period computed for an instant is the one around it that starts at a multiple of its length |
| GovernorOutcomes.NoHoldIsLost | packages/governor/src/governor.ts:636-647 | no call that was answered with a positive hold ends before at least that hold is recorded against the host |
| GovernorProgress.RankFalls | packages/governor/src/governor.ts:508-606 | every job brings its task nearer its end, a retrieval it starts included |
| GovernorProgress.JobsAreBounded | packages/governor/src/governor.ts:187-207 | in every run the jobs number at most a constant per request that arrived |
| GovernorProgress.StuckMeansSettled | packages/governor/src/governor.ts:508-606 | a reachable state in which no job can run now or at any later time has settled every call |
| GovernorProgress.EveryScheduleSettles | packages/governor/src/governor.ts:290-331 | from any point of any run on, with no further arrival, the jobs are bounded whatever is answered, and once that many have run, or none can, every call has settled |
| GovernorProgress.EveryCallSettles | packages/governor/src/governor.ts:290-331 | from every reachable state some schedule of time and jobs finishes every call |
| GovernorFairness.NobodyIsDelayed | packages/governor/src/host-scheduler.ts:63-89 | no step of any run, whoever else arrives or acts, lengthens what a call has to wait for, and every job of the one task it waits for shortens it |
| GovernorFairness.BlockerCanRun | packages/governor/src/governor.ts:508-606 | that task can run, now or at a later time, as long as the call has not settled |
| HostScheduling.WindowNeverExceedsCeiling | packages/governor/src/host-scheduler.ts:103-125 | a history in which release i and release i + maxRequests are an interval apart has at most maxRequests in any window |
| HostScheduling.ReleasesAreCounted | packages/governor/src/host-scheduler.ts:117-122 | a window's count is the number of releases after its start and not after its end |
| HostScheduling.EarliestIsLeastPermitted | packages/governor/src/host-scheduler.ts:103-125 | an instant is permitted by delay, full-history window and hold if and only if it is not before the target computed from the pruned list |
| HostScheduling.GrantKeepsAccounts | packages/governor/src/host-scheduler.ts:78-85 | releasing at a permitted instant keeps the pruned list in step with the full history |
| HostScheduling.PruningIsInvisible | packages/governor/src/host-scheduler.ts:127-129 | pruning at one instant never changes what a later window contains |
| HostScheduling.HostScheduler.AwaitTurn | packages/governor/src/host-scheduler.ts:63-85 | one turn releases at a permitted instant; every sleep but one is charged to a hold that arrived; undisturbed, it is the earliest permitted instant |
| HostScheduling.HostScheduler.Release | packages/governor/src/host-scheduler.ts:57-90 | the same for the host's state and history, touching no other host |
| HostScheduling.HostScheduler.Hold | packages/governor/src/host-scheduler.ts:93-96 | a hold never shortens one in place and touches no other host |
| CircuitBreaker.AnnouncesIffUnprunedHistoryCrosses | packages/governor/src/breaker.ts:77-101 | over every run a record announces a pause if and only if the unpruned outcomes since the last reset, cut to the window, meet both thresholds |
| CircuitBreaker.FailuresAreCounted | packages/governor/src/breaker.ts:83-90 | what is counted against the threshold is the number of failures later than the start of the window |
| CircuitBreaker.RecordAgrees | packages/governor/src/breaker.ts:77-101 | one record on the pruned state and on the unpruned ledger announce alike and stay in agreement |
| CircuitBreaker.AnnouncementsAreApart | packages/governor/src/breaker.ts:77-101 | two announcements for one source are at least `pauseMs` apart |
| CircuitBreaker.OnlyOwnCallsMatter | packages/governor/src/breaker.ts:103-110 | a source's state is the one its own calls produce, whatever is called for others |
| CircuitBreaker.Breaker.Status | packages/governor/src/breaker.ts:53-68 | status reports the ledger's pause and clears an expired one |
| CircuitBreaker.Breaker.Record | packages/governor/src/breaker.ts:77-101 | record announces exactly when the ledger crosses, and leaves other sources alone |
| AllowanceStores.StoresAgreeIffSafe | packages/governor/src/allowance-store-postgres.ts:72-168 | the two stores answer a call alike and keep the same records if and only if the call is safe |
| AllowanceStores.StoresAreInterchangeable | packages/governor/src/allowance-store-memory.ts:48-79 | on every sequence of calls the ledger can make both stores answer alike |
| AllowanceStores.TwoStatementsAreOne | packages/governor/src/allowance-store-postgres.ts:141-168 | the two statements that mark a stop act as one, whatever other sessions run between them |
| AllowanceStores.MemoryStore.Reserve | packages/governor/src/allowance-store-memory.ts:52-59 | the memory store's reserve answers and changes its records as its specification says |
| AllowanceStores.ReserveDecidesInOneStatement | packages/governor/src/allowance-store-postgres.ts:75-107 | whatever runs between the upsert and the read after a refusal, rows and grant are those of one indivisible step, and only a refusal's total can be a later one |
| AllowanceStores.PostgresStore.Reserve | packages/governor/src/allowance-store-postgres.ts:75-107 | the upsert, and after a refusal the read with nothing between them, answer and change the rows as their specification says |
| RobotsMatch.MatchesPattern | packages/governor/src/robots-parse.ts:169-196 | the leftmost-greedy loop accepts exactly the paths with some reading of the pattern, or for an anchored literal those with both ends |
| RobotsMatch.StandardOnEveryPathIff | packages/governor/src/robots-parse.ts:169-196 | the code agrees with the standard on every path if and only if the pattern is unanchored or has a star |
| RobotsMatch.AnchoredLiteralOverAccepts | packages/governor/src/robots-parse.ts:189-195 | `/a$` accepts `/a/a`, which the standard does not |
| RobotsDecision.DollarAnchors | packages/governor/src/robots-parse.ts:169-196 | only a dollar at the end anchors: with a star before it the path is read to its end, with none its two ends are compared, and without it a prefix is read |
| RobotsMatch.NormaliseCommutesWithSplit | packages/governor/src/robots-parse.ts:205-212 | normalising a pattern and cutting it at its stars commute |
| RobotsMatch.NormaliseIsIdempotentIff | packages/governor/src/robots-parse.ts:205-212 | normalising twice is normalising once if and only if no lone percent sign comes to start an escape, a test on the text alone |
| RobotsMatch.WellEscapedHasNoStray | packages/governor/src/robots-parse.ts:205-212 | a path whose every percent sign starts an escape meets that condition |
| RobotsDecision.EscapesByOctet | packages/governor/src/robots-parse.ts:205-212 | for each of the 256 octets, spelt in either case: an unreserved one is decoded, any other keeps its number in upper-case digits |
| RobotsDecision.OthersStay | packages/governor/src/robots-parse.ts:205-212 | a character that starts no two-digit escape is left as it is |
| RobotsMatch.DecidePath | packages/governor/src/robots-parse.ts:134-162 | allowed if and only if no rule applies or a most specific one allows; the rule reported is most specific and decided it |
| RobotsDecision.AllowedIff | packages/governor/src/robots-parse.ts:134-162 | a path is allowed if and only if it is /robots.txt or every disallow that matches it is outweighed by a matching allow of at least as many octets |
| RobotsDecision.OctetsOfOne | packages/governor/src/robots-parse.ts:215-217 | one octet up to code 127, two up to 2047, three up to 65535 and four above |
| RobotsDecision.SelectedIff | packages/governor/src/robots-parse.ts:110-120 | a rule counts if and only if a group naming the token, in any case, has it, or no group names the token and one naming `*` has it |
| RobotsMatch.VerdictIgnoresOrder | packages/governor/src/robots-parse.ts:134-162 | the verdict does not depend on the order or repetition of rules |
| RobotsMatch.VerdictDependsOnAttachments | packages/governor/src/robots-parse.ts:110-120 | the verdict depends only on which agents are named and which rules attach to them |
| RobotsMatch.SplittingAGroupChangesNothing | packages/governor/src/robots-parse.ts:110-120 | splitting a group in two with the same agents changes no verdict |
| RobotsText.ParseRobotsTxt | packages/governor/src/robots-parse.ts:53-99 | the loop reads what `Parsed` says: of every text exactly the groups it is written for (RobotsSpelling.EveryTextIsWritten) |
| RobotsText.TruncatedParseIsCut | packages/governor/src/robots-parse.ts:45-56 | wherever a text is cut, what is read is a cut of the whole text's groups, never an invented rule |
| RobotsSpelling.WrittenFileReadsBack | packages/governor/src/robots-parse.ts:53-104 | however a file of groups is spelt (any case of field names and agents, `useragent`, white space around both parts, comments, any mix of line endings, blank and other lines anywhere, rules before the first agent, a last line without its ending) exactly those groups are read, and of a text cut off all but its last line |
| RobotsSpelling.EveryTextIsWritten | packages/governor/src/robots-parse.ts:53-104 | every text is one of those spellings, so this says of every text what is read from it |
| RobotsSpelling.WrittenLineReads | packages/governor/src/robots-parse.ts:66-73 | a written line reads as its field name in lower case and its value, both without the white space around them |
| Microdata.FindElementEnd | packages/extractor/src/offers.ts:456-469 | the end is the first closing tag that balances, or the limit |
| Microdata.ElementEndsAtItsOwnClose | packages/extractor/src/offers.ts:450-469 | on a tree laid flat an element ends just past its own closing tag |
| Microdata.ReadMicrodataOffer | packages/extractor/src/offers.ts:242-293 | the candidate is made of what the scan collects, nested items jumped over; where the extent is a tree it says what the tree states |
| Microdata.ScanIsTreeWalk | packages/extractor/src/offers.ts:250-275 | the scan of the list collects what a walk of the tree stopping at nested items does |
| Microdata.PageReadsAsItsTree | packages/extractor/src/offers.ts:210-227 | one candidate per offer element, in document order, each saying exactly what that element states itself |
| Microdata.CandidateSays | packages/extractor/src/offers.ts:146-156 | its prices are the stated ones by first appearance, or else the one on which the first low and the first high price agree; it is a range if and only if no price and an end of a range is stated and the two do not agree; its availability is the first stated; its currencies are the stated ones, trimmed and upper-cased |
| Microdata.WalkCollectsItsOwn | packages/extractor/src/offers.ts:190-209 | a candidate holds a value under a name if and only if the offer states it itself, and holds it once |
| MicrodataUnclosed.UnclosedReadsWider | packages/extractor/src/offers.ts:450-455 | whatever closing tags are left out, and whatever the limit, no element ends earlier |
| MicrodataUnclosed.UnclosedReadsExactly | packages/extractor/src/offers.ts:242-293 | with any one closing tag of the page left out, exactly which values are read of an offer whose own markup is a tree |
| MicrodataUnclosed.UnclosedKeepsAll | packages/extractor/src/offers.ts:450-469 | if no nested item of the tag's name holds or ends with it, everything the offer states is still read, and nothing else unless the offer itself has widened |
| MicrodataUnclosed.UnclosedKeepsIff | packages/extractor/src/offers.ts:450-469 | otherwise a value is read if and only if the offer states it outside the stretch the item swallows, or reads it behind its old end, having itself widened |
| MicrodataUnclosed.BlankIsNothing | packages/extractor/src/offers.ts:242-293 | leaving a tag out reads as a tag that opens, closes and states nothing |
| MicrodataUnclosed.UnclosedItemHidesThePrice | packages/extractor/src/offers.ts:450-455 | a nested item left unclosed swallows its offer's price |
| Microdata.CurrenciesAreDistinctIff | packages/extractor/src/offers.ts:28-32 | a candidate's currencies are distinct if and only if no two stated spellings read alike |
| Microdata.SeveralCurrenciesIff | packages/extractor/src/offers.ts:288-288 | an offer has several currencies, which makes it ambiguous, if and only if it states two values, and they are one code if and only if all it states are spellings of one |
| Microdata.OneCodeSpeltTwice | packages/extractor/src/offers.ts:310-321 | a page that states `usd` and `USD` has two currencies of one code |
| PriceSpelling.PriceIsExact | packages/extractor/src/currency.ts:254-303 | a price reads as r if and only if its characters are decoration around digits, with at most one point and commas only where groups of three need them, worth exactly r minor units of a known currency; refused if and only if no integer is |
| PriceSpelling.AmountIsExact | packages/extractor/src/currency.ts:254-281 | an undecorated text reads as r if and only if it has that shape and its digits, shifted by its places, are worth r |
| PriceSpelling.AmountUnlessCut | packages/extractor/src/currency.ts:275-278 | every text of the shape has an amount, unless a digit other than zero is cut off |
| PriceSpelling.CurrencyIsKnownIff | packages/extractor/src/currency.ts:190-195 | a text names a currency if and only if it is its three letters, in either case, with white space around them |
| PriceSpelling.PrintedAmountIs | packages/extractor/src/currency.ts:207-223 | an amount prints as the code, a space, a sign if it is below zero, and digits with as many places as the currency has and no needless zero, worth that amount |
| Currency.PrintedAmountReadsBack | packages/extractor/src/currency.ts:207-223 | for every known currency a printed amount reads back as itself, and one below zero is refused |
| Currency.DecorationIsIgnored | packages/extractor/src/currency.ts:283-303 | white space and currency symbols, any number on either side, change nothing |
| Currency.CodeIsIgnored | packages/extractor/src/currency.ts:283-303 | the code itself, in either case, with any white space or none, changes nothing at either end |
| Currency.GroupingChangesNothing | packages/extractor/src/currency.ts:266-273 | grouping commas never change the amount read |
| Currency.SpellingsReadAlike | packages/extractor/src/currency.ts:254-281 | in a decorated price of any currency neither grouping commas nor a zero more at the end of the fraction change what is read |
| TimeZone.ReadsBackIffItExists | packages/sources/src/time-zone.ts:139-145 | the instant reads back as the local time if and only if some instant does, and otherwise misreads by exactly the jump |
| TimeZone.ThirdPassMattersIffSkipped | packages/sources/src/time-zone.ts:130-138 | a third pass would change the answer exactly for skipped local times |
| TimeZone.AmbiguousTimesAreRead | packages/sources/src/time-zone.ts:23-31 | a local time that happens twice is read as one of its two instants, by which side of the transition it falls |
| TimeZone.SkippedAndDoubledTimesOccur | packages/sources/src/time-zone.ts:23-31 | there are zones with a skipped local time, for which a third pass changes the answer, and with one that comes twice |
| Registry.AssertGovernorWithinDocumentedLimits | packages/sources/src/registry.ts:354-447 | passes if and only if every source complies, reporting each limited source's rates in order; refuses with the first fault, which is explained |
| Registry.PassesIff | packages/sources/src/registry.ts:354-447 | multiplied out: a configuration passes if and only if of every source that publishes a limit the window, the delay and the allowance let no more through than is published for as long |
| Registry.FaultIsThere | packages/sources/src/registry.ts:372-434 | the fault reported is there, and those looked for before it are not |
| Registry.ReportedRates | packages/sources/src/registry.ts:391-446 | the rates reported are the faster of window and delay by the second, and the allowance by the day |
| Registry.ChecksFollowTheSources | packages/sources/src/registry.ts:359-447 | the report has one check for each source that publishes a limit, in the order of the sources, and no other |
| PublishedLimits.PublishedRateIsKept | packages/sources/src/registry.ts:391-408 | in every run of a configuration that passes no half-open second sees more releases to the host than the vendor publishes |
| PublishedLimits.PublishedDayIsKept | packages/sources/src/registry.ts:410-434 | when the period divides the day no day of any run spends more units, of the periods that begin in it, than the vendor publishes |
| PublishedDays.CallsOfTheDayAreKept | packages/sources/src/registry.ts:410-434 | by the instant each call leaves, a day sees at most the published calls and those that were reserving or holding a unit as it began |
| PublishedDays.LateUnitsWereOnTheirWay | packages/governor/src/governor.ts:574-634 | whoever leaves on a unit of a period that is over was reserving or holding it before the period ended |
| PublishedLimits.CheckIsSoundIffPeriodDividesDay | packages/sources/src/registry.ts:422-434 | whatever passes with a period keeps the published figure on every day of every run if and only if the period divides the day |
| PublishedLimits.RaggedPeriodOverspends | packages/sources/src/registry.ts:422-434 | for any other period a configuration that passes and a run that spends, and sends, more on the first day |
| PublishedLimits.TwoDayPeriodDoublesTheDay | packages/sources/src/registry.ts:422-434 | two units every two days pass for one call a day, and a run sends both on the first |

## Left out

- GovernorMoves.DecisionsAreLocal: the governor, the allowance ledger and the robots gate are modelled as steps on one state value, because what they promise is about interleavings; aliasing and update in place of their fields are not captured.
- Microdata.FindMicrodataOffers: starts from the tag list; tag scanning and the attribute expressions behind `offer`, `scope`, `names` and `value` are not modelled.
- GovernorSafety.NoWindowIsOverfull: holds at the release, not at the wire; the code awaits between the two and does not space the departures again.
- PublishedLimits.PublishedDayIsKept: charges a unit to the day its period begins in; a unit reserved before midnight and sent after it is bounded by PublishedDays.CallsOfTheDayAreKept.
- GovernorFairness.NobodyIsDelayed: counts the jobs a call waits for, not the time; each hold that arrives can still put a release off.
- MicrodataUnclosed.UnclosedReadsExactly: one closing tag at a time, on an offer whose own markup was a tree; UnclosedReadsWider is for any number, on any list.
- TimeZone.ReadsBackIffItExists: takes at most one transition within the largest offset of the local time; zones are any such offset function, not IANA's.
- Currency.PrintedAmountReadsBack: the exponent table is any map from codes to exponents, not the repository's list; upper-casing is that of the ASCII letters.
- Transport, database drivers, migrations, SQL text and real timers: the transport gives any answer, each SQL statement is one step, the clock is monotone and sleeps last at least as long as asked.
- Failing stores, failing notifiers and a clock set back.
- Two workers sharing one store: the model has one process, with any number of requests interleaved in it.
- Where the code passes between two of its own functions without touching shared state a step may end early, which only adds interleavings.
- URL parsing, host keys, headers, `Retry-After` parsing (a hold, when given, is positive) and message texts.
- Configuration readers: their accepted bounds are preconditions; `minDelayMs < cacheBoundMs` stays a condition per host, because the code decides by it.
- JSON-LD offers and the choice between the two readers.
- The second-resolution flooring inside `zoneOffsetAt`, timestamp patterns and explicit offsets.
- Alerts, collection runs, redaction, attribution and the repository's own policy checks.
