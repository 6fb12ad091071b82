# Verified model of the persona chat service

This project models the safety-critical core of the persona chat service in Dafny and proves what it guarantees over
every run. The chat surface is a state machine whose steps interleave freely: a persona turn is split where the handler
awaits, so other requests, consent acknowledgements, intakes, queue reads and resolutions may fall between its halves.
Around it stand the pagers and the on-call roster, the usage recorders, the key vault and its client cache, the
grounding cache, the gate calibration, and five smaller algorithms of the scripts and the adjudication layer.

Code that changes state is a class whose methods follow the handler's own order of early exits and writes
(`ChatService.Service`, `PageTransport.Transport`, `Grounding.ScopeCache`, `Metering.InMemoryUsageRecorder`,
`Vault.InMemoryByokVault`, `ClientCache.Resolver`, `Writeback.Tool`, `Routing.ReviewerRouter`, `Replay.Replayer`). Each
method is proved to compute a specification function, and the theorems are about those functions and about runs of them.
A theorem says what it says in words of its own: the settings' texts, plain sums, positions in a list, the fields of a
state. Where a specification function has such a reading, the two are proved equal.
Collaborators whose behaviour lies outside (the crisis classifier, the generator, the judge model, the ciphers, the face
detector, the network) are parameters: the theorems hold for every choice of them.

| module | what it holds |
|---|---|
| `Text`, `Orders`, `Rounding`, `Base64` | trimming and casing, sorting, half-even rounding, the URL-safe text form of bytes |
| `RealUserGate`, `Coverage`, `Risk`, `Alignment` | the traffic gates, the staffed-hours window, the enforcement matrix, the claim guard and its judge |
| `ChatModel`, `ChatService` | the state, exits and steps of the chat surface; the handler proved against them |
| `ChatSafety`, `ChatTurns` | which exit a request takes, consent and crisis; what each exit writes and what is heard of a turn, over every run |
| `ChatAudit`, `ChatIntake`, `ChatQueue` | conservation, the risk flags of a run, and the ticket queue, over every run |
| `ChatDosage`, `ChatOverlap`, `ChatPaging` | dosage and distress, the runs that reach the dosage bound, and pages carried through the pagers |
| `Roster`, `Paging`, `PagerCounts`, `PagerWeather`, `PagerFactory`, `PageTransport` | who is paged, the pager tree over failing channels, which trees report every failure, what each send meets and in which order, the tree the settings build, the page methods |
| `Grounding` | the sixty-second cache of groundable memories under overlapping scans |
| `Metering`, `MeteringSums`, `MeteringLaws`, `MeteringAgreement` | the two usage recorders, what their reports say, the laws of daily aggregates, and when the recorders agree |
| `Calibration`, `Percentile` | the threshold search and interpolated percentiles |
| `Vault`, `ClientCache` | sealed provider keys, and which model client answers a turn |
| `Writeback`, `Routing`, `Curation`, `Replay` | watermark write-back, review routing, photo curation, history replay |

Amounts are exact: gate scores are whole ten-thousandths, money is counted in hundred-millionths of a dollar, means and
interpolations are rationals. Blobs follow section 5 of RFC 4648; authenticated encryption is a seal and open
pair with the correctness and authenticity of sections 7.1 and 7.2 of NIST SP 800-38D.

## Where the code and its documentation differ

The model follows the code.

- A failing ticket queue pages but stores no ticket, although the fail-safe is described as recording a degraded one;
  `ChatAudit.DeskLedger` therefore counts logged and lost tickets apart.
- A cached or scanned answer is promised to lag by at most sixty seconds; a scan answered sixty seconds or more after it
  read the backend breaks that (`Grounding.FreshWhenGivenExactlyForPromptScans`).
- Drill markers are looked for in the conversation id, which the client chooses (`ChatPaging.MarkedConversationIsNotSent`).
- A message whose key does not survive the store's length cut is replayed every time
  (`Replay.SentAgainExactlyWhenTheCutLosesTheKey`).
- An overnight coverage window is reported open in its early-morning tail on a committed day even when the evening
  before is not committed (`Coverage.OpenMatchesShiftsExactlyOutsideTheTail`).
- Turns of one session that overlap all see the same log, so a session stays within its dosage cap in every run if and
  only if its turns do not overlap (`ChatOverlap.CapHoldsExactlyWithoutOverlap`).
- A supported verdict clears claims by text, so a policy claim with the same text goes too (`Alignment.SharedTextWitness`).
- The SMS and email pagers drop their fallback's failure count; `PagerCounts.CountsAreKeptExactly` says which trees lose
  nothing by it.
- A seat with only a bridge address is never a target, although the bridge pager exists for such addresses
  (`PagerFactory.FactoryAttempts`).
- The threshold search never considers a cut at or below the lowest score, which matters exactly when no score above the
  lowest pays off (`Calibration.BestOfAllExactlyWhenSomeScorePaysOff`), and rounding can move a cut onto a neighbouring
  score (`Calibration.SeparatedRates`).
- The helper named for rounding half up rounds half to even; `MeteringAgreement.MeanRoundsHalfToEven` says for which means
  that shows.
- The client cache is keyed by a truncated digest, so it answers as no cache would if and only if no two keys collide
  (`ClientCache.InvisibleExactlyWithoutCollisions`).
- A client that fails to build is not remembered, although a comment says so (`ClientCache.KeySourceIsExact`).
- A dry write-back run appends to the decision log, although it is described as writing nothing (`Writeback.DryRunLogs`).
- A keeper with an empty identifier does not stop its duplicates (`Curation.DeduplicationNeedsIdentifiers`).

## Model

| member | source | states |
|---|---|---|
| RealUserGate.RefusalIsMonotone | src/huible/api/real_user_gate.py:112-150 | opening the ramp further, or widening the allowlist, never refuses a turn that was admitted before |
| RealUserGate.ParsingIgnoresPaddingAndCase | src/huible/api/real_user_gate.py:84-110 | mode, traffic class and switch read the same however the setting is padded, and whatever the case of its letters |
| Coverage.OpenWheneverStaffed | src/huible/safety/handoff.py:158-242 | a moment that a committed shift covers is never reported closed |
| Coverage.OpenMatchesShiftsExactlyOutsideTheTail | src/huible/safety/handoff.py:216-242 | the window agrees with the documented shifts if and only if the moment is not in an overnight tail whose eve is uncommitted |
| Coverage.MondayTailWitness | src/huible/safety/handoff.py:216-242 | a concrete unstaffed moment that is reported open |
| Risk.BindingIsMostRestrictive | src/huible/safety/risk.py:302-308 | the binding action is a required one and nothing ahead of it in the precedence order is required |
| Risk.BindingDecides | src/huible/safety/risk.py:310-394 | which flag or session signal binds a turn: pause, handoff, topic refusal, reframing or nothing, each exactly when |
| Risk.TightenExactly | src/huible/safety/risk.py:337-373 | a turn is tightened exactly for three of the flags, rising distress or an earlier crisis |
| Alignment.IndexEntries | src/huible/safety/judge.py:197-230 | the look-up dictionaries hold, for each key, the last usable entry and no unusable one |
| Alignment.ParseVerdict | src/huible/safety/judge.py:197-258 | supported exactly when every judged claim was matched by a supporting entry, unavailable exactly when none was matched |
| Alignment.RulingIsTheLastOne | src/huible/safety/judge.py:197-240 | a claim's ruling is that of the last usable entry that names it in full, else of the last that echoes it, else none |
| Alignment.BareIsEcho | src/huible/safety/judge.py:187-194 | two texts have one key exactly when their letters and digits agree one by one, case and the rest aside |
| Alignment.AlignmentReport.Adjudicate | src/huible/api/app.py:2400-2472 | the mutable report ends as the judge's answer dictates, and the overturn counter moves exactly when it clears claims |
| Alignment.AdjudicationOutcome | src/huible/api/app.py:1669-1715 | for every guard result and judge answer: when the original reply is restored, which claims remain, and when a suppression pages |
| Alignment.AskedExactly | src/huible/api/app.py:2400-2437 | the judge is asked exactly about an eligible generator's own reply with a biographical or relationship claim in it |
| Alignment.RestoredExactlyWhenAllJudgedSupported | src/huible/api/app.py:2429-2472 | without shared texts, restoration means all flagged claims were judgeable and supported, and pages come exactly from policy-only remains or a fabricated verdict |
| Alignment.SharedTextWitness | src/huible/api/app.py:2455-2472 | with a shared text the clear also drops a policy claim and nobody is paged |
| ChatService.Service.Chat | src/huible/api/app.py:1075-1535 | a request takes exactly the exit the gates, the classifier, consent and enforcement decide, and writes exactly that exit's rows, pages and counters |
| ChatService.Service.PassGates | src/huible/api/app.py:1075-1284 | scope check, kill switch, ramp gate, coverage gate and validation in order, each with its own writes |
| ChatService.Service.Converse | src/huible/api/app.py:1285-1535 | crisis pre-check before consent, consent before enforcement, enforcement before generation |
| ChatService.Service.Escalate | src/huible/api/app.py:2874-2948 | one ticket and one page for an escalation, or one page and no ticket when the queue fails |
| ChatService.Service.DistressTrendRising | src/huible/api/app.py:2756-2788 | the loop over the recent window computes the trend predicate |
| ChatService.Service.GeneratorReturns | src/huible/api/app.py:1566-1626 | a reply or a budget fallback writes one usage row and passes the affect guard; any other error aborts the turn and writes nothing else |
| ChatService.Service.TurnFinishes | src/huible/api/app.py:1630-1766 | guard, judge, suppression page, log, counter and post-hoc consent check, in that order |
| ChatService.Service.AcknowledgeConsent | src/huible/api/app.py:1802-1860 | consent is recorded for the caller's own registered persona and a named session, and otherwise not at all |
| ChatService.Service.RecordIntake | src/huible/api/app.py:2163-2262 | intake flags are stored only behind consent, persona-wide except the proxy flag, which stays with the session |
| ChatService.Service.ReadQueue | src/huible/api/app.py:1881-1902 | a queue read pages exactly the breached pending tickets and reports how many |
| ChatService.Service.ResolveTicket | src/huible/api/app.py:1909-1948 | a known ticket takes a final outcome, anything else changes nothing |
| ChatIntake.FlagsOfARun | src/huible/safety/intake.py:249-306 | in every run the flags a turn is judged by are what the persona's last accepted intake found, plus the proxy flag exactly when some accepted intake on this very session reported one |
| ChatIntake.LastIntakeDecides | src/huible/safety/intake.py:272-301 | the last accepted intake replaces a persona's flags, in every session |
| ChatIntake.ProxyStays | src/huible/safety/intake.py:290-305 | no later intake clears a session's proxy flag and no other session sets it |
| ChatIntake.ProxyPauseLasts | src/huible/safety/risk.py:310-394 | once a proxy was reported, every later request on the session past gates, crisis check and consent is paused |
| ChatAudit.NextKeeps | src/huible/api/app.py:1075-1794 | every step of the surface keeps the audit ledger |
| ChatAudit.AuditConservation | src/huible/api/app.py:1094-1726 | in every run: each logged ticket earned its own page in order, each lost one a page, usage rows match persona turns delivered or in flight, and every request is counted once, aborted or in flight |
| ChatAudit.PageTotals | src/huible/api/metrics.py:343-373 | the dashboard totals: tickets against escalation outcomes, pages against tickets, confirmed suppressions and re-pages, requests against outcomes and aborts |
| ChatAudit.KindsPartitionPages | src/huible/api/paging.py:1011-1150 | every page is counted under exactly one reason |
| ChatSafety.ConsentIsExactlyWhatWasAcknowledged | src/huible/safety/consent.py:261-306 | in every run the consent set is exactly the pairs some earlier step acknowledged |
| ChatSafety.GatesDecideExactly | src/huible/api/app.py:1075-1284 | each gate refuses exactly when it is the first to object, in terms of the texts of the settings, of the traffic header and of the relationship |
| ChatSafety.ConversationDecidesExactly | src/huible/api/app.py:1300-1535 | past the gates: crisis, consent, pause, handoff, topic refusal and generation, each exactly when |
| ChatSafety.GenerateExactlyWhen | src/huible/api/app.py:1075-1564 | a request reaches the generator exactly when it says it is internal, or real traffic is switched on, the ramp admits its persona and the window is staffed; its relationship and persona are known; and neither a crisis, missing consent, a flag, the cap nor the trend stops it |
| ChatSafety.GenerationIsAlwaysConsented | src/huible/api/app.py:1365-1400 | in every run a generation serves a non-crisis message on a client-supplied, earlier acknowledged session, with every gate open |
| ChatSafety.ConsentBypassPageUnreachable | src/huible/api/app.py:1747-1765 | the defence-in-depth consent page is sent in no run |
| ChatSafety.CrisisFilesExactlyOneTicket | src/huible/api/app.py:1094-1362 | a crisis message files and pages exactly once where the classifier runs, nothing elsewhere (the ramp refusal included), and never reaches the generator; its ticket waits for a person exactly when one is on duty |
| ChatTurns.ExitsLog | src/huible/api/app.py:1094-1535 | which notice each exit leaves in the log, and that exactly crisis exits mark the conversation |
| ChatTurns.ExitsFile | src/huible/api/app.py:1094-1515 | which exits file a ticket, with which trigger, flags, outcome and reason, and its page |
| ChatTurns.ExitsCount | src/huible/api/app.py:1076-1530 | every request is received once and counted under the outcome of its exit |
| ChatTurns.TurnDelivers | src/huible/api/app.py:1566-1765 | for every state, text and finding: the whole state a finished turn leaves, its reply being the generated text, the consolation or the fallback, each exactly when |
| ChatTurns.AbortWritesNothing | src/huible/api/app.py:1566-1602 | any other generator error leaves only the count of the aborted turn |
| ChatTurns.WhatIsHeard | src/huible/api/app.py:1075-1720 | in every run a delivery appends to its request's conversation that request's message and what is heard of its own generation, and touches no other; its usage row names its persona, conversation and budget mark |
| ChatTurns.NoDismissiveReply | src/huible/safety/affect.py:88-109 | in no run does a user in distress, after a crisis or with a flagged bereavement hear a dismissive generation |
| ChatDosage.HistoriesAlternate | src/huible/api/app.py:2520-2535 | in every run every session's log is an even-length user and persona alternation |
| ChatDosage.HistoryGrows | src/huible/api/app.py:2696-2706 | logs only grow, so the turn count enforcement sees never falls |
| ChatDosage.DosagePauseIsAbsorbing | src/huible/api/app.py:2791-2830 | once a session reaches its cap, no later request on it generates, hands off or refuses a topic |
| ChatDosage.RepliesPerSessionBounded | src/huible/api/app.py:2791-2830 | replies per session stay within the cap plus the overlap less one, in every run |
| ChatOverlap.OverlapReachesTheBound | src/huible/api/app.py:2791-2830 | for every cap of at least two and every overlap some run gives exactly the cap plus the overlap less one |
| ChatOverlap.CapHoldsExactlyWithoutOverlap | src/huible/api/app.py:2791-2830 | a session stays within its cap in every run if and only if its turns do not overlap |
| ChatOverlap.ThreeRepliesUnderACapOfTwo | src/huible/api/app.py:2791-2830 | ten steps that give three replies under a cap of two |
| ChatPaging.EveryTicketIsHeard | src/huible/api/app.py:2909-2947 | in every run, every weather and any pager tree, each logged ticket's page is made and ends in a delivered send or a log line |
| ChatPaging.RealSendsExactly | src/huible/api/paging.py:410-489 | in every run something real is sent for a logged ticket exactly when an armed channel has somewhere to send and no drill marker occurs in its id, conversation or persona |
| ChatPaging.MarkedConversationIsNotSent | src/huible/api/paging.py:410-427 | a conversation named with a drill marker gets no real page for its own crisis |
| ChatPaging.PagesTryExactly | src/huible/api/paging.py:1011-1150 | who is tried for each kind of page: a re-page escalates to the ceiling, and the clinical seat is for fresh crises and re-pages |
| ChatPaging.LostTicketsAreHeard | src/huible/api/app.py:2874-2947 | and so does the page of each ticket a failing queue lost |
| ChatDosage.OverlappingRequestsSeeTheSameGates | src/huible/api/app.py:1566-1720 | starting a turn changes nothing the gates read, which is why overlap matters |
| ChatDosage.TrendIsTwoOfTheLastThree | src/huible/api/app.py:2756-2788 | the trend fires exactly when two of the last three user messages, the current one included, grade distress |
| ChatQueue.RepagesExactlyTheBreached | src/huible/api/paging.py:1082-1140 | the re-pages are exactly the pending tickets that have waited longer than the target, each once and in order |
| ChatQueue.TicketsKeepTheirFacts | src/huible/api/app.py:1909-1948 | in every run a ticket keeps everything but its outcome, and a final outcome stays final |
| ChatQueue.QueueReadsRepageTheOverdue | src/huible/api/app.py:1881-1902 | in every run a queue read re-pages the overdue tickets and nothing else, and none that was answered or abandoned before |
| Roster.Targets | src/huible/api/paging.py:281-321 | the loop with its set of seen seats returns the reachable slots, each seat at its first place |
| Roster.TargetsAreTheReachableSlots | src/huible/api/paging.py:281-321 | targets are exactly the reachable slots with no seat twice |
| Roster.WhoIsPaged | src/huible/api/paging.py:249-321 | at every moment, in order and each once: the shift's primary and secondary, the ceiling when escalating, the clinical seat when asked for, of those with a phone or an email; past the last shift without the first two, and off the clock the clinical seat alone |
| Paging.EveryPageLands | src/huible/api/paging.py:366-860 | for every pager tree and every pattern of failures a page ends in a delivered send or a log line, and returned plus dropped failure counts equal the failed sends |
| PagerWeather.EverySendMeetsTheWeather | src/huible/api/paging.py:366-860 | in every tree each send meets the outcome that is its turn, none skipped and none used twice |
| PagerWeather.ChannelsFireInTurn | src/huible/api/paging.py:838-860 | the built pager fires webhook, bridge, messages and mails in this order |
| PagerCounts.CountsAreKeptExactly | src/huible/api/paging.py:624-777 | a tree drops no failure count in any weather, and so returns exactly its failed sends, if and only if every armed SMS or email pager reached with someone to page has a fallback that can send nothing |
| PagerCounts.RunCounted | src/huible/api/paging.py:366-860 | what the tree can send and drop, in any weather and with every channel down |
| PagerFactory.NothingDiscarded | src/huible/api/paging.py:944-1005 | a tree whose fallbacks are all the log line meets that condition |
| PagerFactory.FactoryCountsFailures | src/huible/api/paging.py:944-1005 | a factory-built pager returns exactly the number of failed real sends |
| PagerFactory.UnderReport | src/huible/api/paging.py:690-697 | with every channel down, an SMS pager over a webhook reports one failure fewer than happened |
| PagerFactory.DrillSuppression | src/huible/api/paging.py:410-489 | a drill-marked ticket attempts no real send; any other ticket is paged exactly as without drill suppression |
| PagerFactory.MarkersAreTheParts | src/huible/api/paging.py:405-407 | the markers are the comma-separated parts of the setting, trimmed and lower-cased, without the blank ones |
| PagerFactory.DrillExactly | src/huible/api/paging.py:410-427 | a ticket is a drill exactly when a marker occurs in its id, conversation or persona, case aside |
| PagerFactory.FactoryAttempts | src/huible/api/paging.py:811-860 | an address is attempted exactly when its channel is armed and it is, for that channel, one of a contact who is to be paged; the clinical seat always on crisis and escalated pages |
| PagerFactory.FactorySendsExactly | src/huible/api/paging.py:944-1005 | in every weather the factory's pager sends something real exactly when no id holds a marker and an armed channel has somewhere to send |
| PageTransport.Transport.SendToAll | src/huible/api/paging.py:664-690 | the fan-out loop sends to each address in order and returns the failures and whether any send landed |
| PageTransport.Transport.PageAll | src/huible/api/paging.py:581-697 | a fan-out that lands nowhere hands over to the fallback, keeping its count or not |
| PageTransport.Transport.PageParts | src/huible/api/paging.py:838-860 | the channels of a multi-channel pager fire in turn and their failures add up |
| PageTransport.Transport.Page | src/huible/api/paging.py:366-860 | every page method produces the events and the count of the tree's specification |
| Grounding.AnswersAreFreshSnapshots | src/huible/api/app.py:2371-2397 | under every interleaving, refs given to a turn are what a scan for its own requester returned later than sixty seconds before it read the clock |
| Grounding.FreshWhenGivenExactlyForPromptScans | src/huible/api/app.py:2350-2397 | what is served is less than sixty seconds old when it is served, in every run whose scans are answered within d seconds of reading the backend, if and only if d is below sixty |
| Grounding.LagIsBoundedWhenServed | src/huible/api/app.py:2350-2356 | with such prompt scans the sixty-second lag holds of what is served |
| Grounding.LagIsBounded | src/huible/api/app.py:2350-2356 | once memories have been settled for sixty seconds before a turn reads the clock, its answer is the settled one, however slow its scan |
| Grounding.NobodySeesMoreThanTheirOwn | src/huible/persona/context.py:325-352 | in every run an answer holds only memories of high or medium confidence, at or below the requester's rank and not after their boundary, and exactly those the backend held for them at one moment of the last sixty seconds |
| Grounding.ScanReturnsExactly | src/huible/persona/context.py:325-352 | a scan returns a memory if and only if it is of the persona, of high or medium confidence, at or below the rank and within the era, and as often as it is held |
| Grounding.LiveEntryAnswersAtOnce | src/huible/api/app.py:2371-2382 | an entry less than sixty seconds old answers its persona, rank and boundary at once; otherwise a scan starts |
| Grounding.SameKeySameScan | src/huible/api/app.py:2374-2378 | requesters with one cache key may see the same memories |
| Grounding.ExtendKeepsFresh | src/huible/api/app.py:2371-2397 | every event keeps cache entries, scans under way and replies fresh |
| Grounding.OnlyCompletedScansAreCached | src/huible/api/app.py:2383-2397 | only a completed scan changes the cache, at its own key; a failed one answers nothing |
| Grounding.ScopeCache.Begin | src/huible/api/app.py:2371-2382 | a live entry answers at once, otherwise a scan starts |
| Grounding.ScopeCache.ReadBackend | src/huible/persona/context.py:606-619 | the scan keeps exactly what the backend holds for the requester at that moment |
| Grounding.ScopeCache.Abandon | src/huible/api/app.py:2389-2395 | a failed scan answers nothing and leaves the cache alone |
| Grounding.ScopeCache.Complete | src/huible/api/app.py:2396-2397 | the entry is stamped with the clock read before the scan |
| Calibration.BestMidpoint | scripts/calibrate_gate.py:73-86 | the scan finds the first of the best midpoints |
| Calibration.BestMidpointIsBestCut | scripts/calibrate_gate.py:73-86 | that midpoint is at least as good as every real cut above the lowest score and better than every cut in an earlier gap |
| Calibration.PickThreshold | scripts/calibrate_gate.py:67-92 | the choice, its rounding, both rates, and exactly which inputs raise |
| Calibration.RoundingKeepsTheCut | scripts/calibrate_gate.py:86-91 | the rounded threshold classifies as the exact midpoint if and only if the neighbours are two ten-thousandths apart or the half goes up |
| Calibration.SeparatedRates | scripts/calibrate_gate.py:71-91 | separated sets: every positive is accepted, and every negative rejected if and only if the gap is wide or the half goes up |
| Calibration.NarrowGapWitness | scripts/calibrate_gate.py:71-91 | a gap of one ten-thousandth that lets the negative through |
| Calibration.BestOfAllExactlyWhenSomeScorePaysOff | scripts/calibrate_gate.py:73-86 | the chosen cut is best among all real cuts if and only if some score above the lowest turns away enough negatives for the positives it costs |
| Calibration.ScoreAgainstAll | scripts/calibrate_gate.py:78-83 | the measure of a cut against that of accepting everything, in whole numbers |
| Calibration.BestOfAllWhenTheLowestIsNegative | scripts/calibrate_gate.py:73-86 | with a negative lowest score the chosen cut is best among all real cuts |
| Calibration.AcceptingEverythingCanWin | scripts/calibrate_gate.py:73-86 | an instance where no score pays off and accepting everything wins |
| Metering.InMemoryUsageRecorder.RecordTurn | src/huible/api/metering.py:270-271 | one row is appended |
| Metering.InMemoryUsageRecorder.DailyAggregates | src/huible/api/metering.py:273-312 | grouping in a dictionary, adding up and sorting yields the report that `MeteringSums` describes |
| Metering.PostgresUsageRecorder.RecordTurn | src/huible/api/metering.py:409-431 | one row is stored with its price rounded to the column |
| MeteringSums.GroupsOfReport | src/huible/api/metering.py:281-312 | one entry for each key among the rows in the window with the persona and key asked for, in order of day, key, persona and source |
| Orders.StringLeIsLexicographic | src/huible/api/metering.py:311-312 | the string order of the sort: a proper prefix first, else by the first character that differs |
| MeteringSums.EveryEntrySays | src/huible/api/metering.py:293-311 | every entry has the sums of its group's requests and tokens, the nearest whole price of its charges, the nearest hundredth of its mean latency, its distinct conversations and its one organisation |
| MeteringSums.EveryStoredEntrySays | src/huible/api/metering.py:433-485 | the durable report: the same sums, the sum of the cost column, the distinct conversations and the least organisation |
| MeteringSums.StoredRow | src/huible/api/metering.py:409-431 | a row is stored as recorded, its price the nearest whole unit, halves away from zero |
| MeteringSums.ReportsConserve | src/huible/api/metering.py:293-311 | requests and tokens of a report add up to those of the rows it is of |
| MeteringLaws.KeysStrictlyIncrease | src/huible/api/metering.py:281-312 | keys strictly increase, and a key is present exactly when a selected row has it |
| MeteringLaws.DailyConserves | src/huible/api/metering.py:293-311 | the same in terms of the summed usage of the selected rows |
| MeteringLaws.FiltersCommute | src/huible/api/metering.py:281-292 | filtering before grouping equals filtering after |
| MeteringLaws.AdjacentWindowsConcatenate | src/huible/api/metering.py:281-312 | two adjacent windows report one after the other what the joined window reports |
| MeteringAgreement.RecordersAgree | src/huible/api/metering.py:409-485 | the two recorders agree if and only if each selected group has at most one organisation, no empty identifier and an accumulated column-rounding error that does not show |
| MeteringAgreement.WholePricesAgree | src/huible/api/metering.py:409-485 | for modeled and free rows only the identifiers matter |
| MeteringAgreement.GroupsAgree | src/huible/api/metering.py:433-485 | the same for one group, price on read against price on write, for all prices |
| MeteringAgreement.ModeledPricesAreWhole | src/huible/api/metering.py:126-155 | modeled and free prices are whole units |
| MeteringAgreement.SumOfPricesIsPriceOfSums | src/huible/api/metering.py:114-155 | summing row prices is pricing the summed tokens, rate by rate |
| MeteringAgreement.ReportedCostsCanPart | src/huible/api/metering.py:126-155 | an instance: two reported costs below the column's last place make the recorders differ |
| MeteringAgreement.MeanRoundsHalfToEven | src/huible/api/metering.py:488-497 | half-even and half-up means differ for exactly the latency sums that fall halfway above an even hundredth |
| MeteringAgreement.OneInEight | src/huible/api/metering.py:488-497 | an instance: the mean 0.125 is reported as 0.12 |
| Rounding.HalfEvenAgainstHalfUp | src/huible/api/metering.py:488-497 | the two roundings differ exactly halfway above an even number |
| Base64.DecodeEncode | src/huible/api/byok_vault.py:119-137 | decoding undoes encoding for all bytes |
| Base64.EncodeFollowsTheStandard | src/huible/api/byok_vault.py:119-125 | three bytes are four digits of the alphabet, most significant first; what is left over is filled with zero bits and padded |
| Base64.StrayCharactersAreIgnored | src/huible/api/byok_vault.py:127-137 | the text form is not unique: stray characters are skipped |
| Base64.WhatIsMalformed | src/huible/api/byok_vault.py:127-144 | text that is not ASCII, and an encoding that lost its last padding, are not read |
| Vault.DecryptEncrypt | src/huible/api/byok_vault.py:119-144 | opening undoes sealing under the same secret and associated data, for every cipher that opens what it sealed |
| Vault.DecryptElsewhere | src/huible/api/byok_vault.py:127-144 | under another secret or other associated data a sealed blob opens if and only if some text seals there to the very same bytes |
| Vault.OtherBlobsAreRefused | src/huible/api/byok_vault.py:127-144 | fewer than three dots are malformed, another version is unknown, under every secret |
| Vault.SharedAadExactly | src/huible/api/byok_vault.py:188-189 | two providers can share associated data exactly when one name ends in a colon and the other |
| Vault.AadIsInjective | src/huible/api/byok_vault.py:188-189 | for colon-free providers the associated data tells every pair apart |
| Vault.FetchReturnsTheLatest | src/huible/api/byok_vault.py:181-205 | after any run a fetch returns the key last put and not removed, with its fingerprint, or nothing |
| Vault.LastPutIsFetched | src/huible/api/byok_vault.py:181-219 | where the last operation on a slot was a put, its key is fetched and its fingerprint and time are shown; else nothing is |
| Vault.MovedRowFailsToOpen | src/huible/api/byok_vault.py:95-104 | a row copied to another slot fails to open there if and only if no text seals to the same bytes under that slot's associated data |
| Vault.RotatedSecretOpensNothing | src/huible/api/byok_vault.py:114-144 | under another master secret a stored key fails to open if and only if no text seals to the same bytes under the new key |
| Vault.IdealRowsOpenOnlyAtHome | src/huible/api/byok_vault.py:95-104 | with an ideal cipher no row opens at another colon-free slot or under another secret |
| Vault.InMemoryByokVault.Store | src/huible/api/byok_vault.py:191-195 | the slot holds the newly sealed key and its fingerprint |
| Vault.InMemoryByokVault.FetchKey | src/huible/api/byok_vault.py:197-202 | absent, opened, or the decryption error |
| Vault.InMemoryByokVault.Delete | src/huible/api/byok_vault.py:204-205 | the slot is gone, and whether it existed is reported |
| Vault.InMemoryByokVault.ListKeys | src/huible/api/byok_vault.py:207-219 | exactly the tenant's rows in strictly increasing order of provider |
| Vault.ListShowsTheLatest | src/huible/api/byok_vault.py:207-219 | after any run the list shows a provider exactly when its latest key was not removed, with that key's fingerprint |
| ClientCache.Resolver.Resolve | src/huible/api/app.py:2566-2647 | the cached resolution step, branch by branch |
| ClientCache.CachingIsInvisible | src/huible/api/app.py:2587-2647 | after any run of turns the answer is the one that no cache would give, unless an earlier usable key clashes with this turn's |
| ClientCache.InvisibleExactlyWithoutCollisions | src/huible/api/app.py:2629-2647 | caching is invisible in every run if and only if no two distinct keys share a digest when one of them builds |
| ClientCache.CollisionsShareClients | src/huible/api/app.py:2629-2634 | with colliding digests the second caller gets the first caller's client, whether or not its own key builds |
| ClientCache.TheLatestKeyAnswers | src/huible/api/app.py:2587-2647 | cache and vault together, over every run: the trimmed header's key, else the caller's latest vaulted key for the provider, if keys are enabled and it builds, else the house client |
| ClientCache.KeySourceIsExact | src/huible/api/app.py:2587-2647 | the key source is the client's exactly when its key is usable; a header key hides the vault; a failed build caches nothing |
| Writeback.Tool.Run | scripts/vault_writeback.py:381-465 | a run writes what `Writeback.RunWritesExactly` says |
| Writeback.Tool.LogWindows | scripts/vault_writeback.py:407-458 | the decision loop; applied and noise add up to the windows |
| Writeback.RunWritesExactly | scripts/vault_writeback.py:381-465 | a run adds one entry for each window of due turns, with exactly those turns, in order of the windows, applied exactly from fifteen lines on and when it drifts; then the watermark is the highest due id |
| Writeback.WindowsPartition | scripts/vault_writeback.py:397-404 | windows keep every turn once |
| Writeback.OneRunCatchesUp | scripts/vault_writeback.py:381-465 | one run on a longer export consumes exactly the added matching turns |
| Writeback.EveryMatchingTurnIsLoggedOnce | scripts/vault_writeback.py:381-465 | over every sequence of runs on growing exports the log holds the matching turns once each and the watermark is their highest id |
| Writeback.LoggedCountsAddUp | scripts/vault_writeback.py:407-465 | logged counts add up to the turns consumed, and each matching turn is in exactly one window |
| Writeback.RerunChangesNothing | scripts/vault_writeback.py:381-465 | running again on the same export is a no-op |
| Writeback.DryRunLogs | scripts/vault_writeback.py:407-465 | a dry run leaves the log alone if and only if nothing was new |
| Writeback.DryThenRealLogsTwice | scripts/vault_writeback.py:407-465 | after a dry run, a real one logs the new turns a second time |
| Routing.ReviewerRouter.Route | src/huible/adjudication/reviewer_routing.py:108-119 | the three loops compute the routing |
| Routing.ReviewerRouter.BuildFlagMap | src/huible/adjudication/reviewer_routing.py:208-235 | the loop over failed gates raises the flags of the specification |
| Routing.RaisedByGates | src/huible/adjudication/reviewer_routing.py:208-235 | which flags a set of gate names raises, order and repeats aside |
| Routing.MatchesByGates | src/huible/adjudication/reviewer_routing.py:208-235 | a rule matches exactly when the failed gates and the candidate raise its flag |
| Routing.MostUrgentRuleDecides | src/huible/adjudication/reviewer_routing.py:246-264 | the decision is made by the most urgent matching rule, the earliest on ties |
| Routing.BestIsTheFirstBest | src/huible/adjudication/reviewer_routing.py:246-264 | of any decisions the one picked has none ahead of it in urgency, or in reasons at the same urgency, and is the first such |
| Routing.RoutingMeans | src/huible/adjudication/reviewer_routing.py:181-275 | every routing: the deciding rule, or the fallback, or the default |
| Routing.DefaultRouting | src/huible/adjudication/reviewer_routing.py:35-80 | where every entry goes on the default table, with its priority and reasons |
| Routing.OnlyTheSetOfGatesMatters | src/huible/adjudication/reviewer_routing.py:208-264 | permuting, repeating or re-casing the failed gates changes neither addressee nor priority |
| Routing.AppendingNeverLowersAMatch | src/huible/adjudication/reviewer_routing.py:181-206 | an appended rule never lowers the urgency of an entry that already matched |
| Routing.AppendingCanDemoteAFallback | src/huible/adjudication/reviewer_routing.py:181-206 | an appended rule demotes a fallback entry if and only if it matches at low priority |
| Routing.DemotedEntry | src/huible/adjudication/reviewer_routing.py:181-275 | an entry on a table of its own that an appended rule demotes |
| Routing.DefaultTableIsComplete | src/huible/adjudication/reviewer_routing.py:35-80 | on the default table no appended rule changes the routing of an entry that none of its rules matches |
| Routing.ReviewerRouter.AddRule | src/huible/adjudication/reviewer_routing.py:181-182 | the rule is appended at the end |
| Curation.QualityOk | scripts/ref_curate.py:44-60 | the reasons in order, and none exactly for one face, wide and large enough and turned no further than the limits |
| Curation.Curate | scripts/ref_curate.py:72-112 | the keep and reject loop |
| Curation.KeptExactlyWhen | scripts/ref_curate.py:72-112 | the next photo is kept exactly when it can be used and the first keeper near it, if any, has no identifier |
| Curation.ReasonsExactly | scripts/ref_curate.py:44-107 | why a photo is turned away: a missing file, rights or a short edge alone, else every fault of the face, in order |
| Curation.HammingCountsDifferences | scripts/ref_curate.py:94-99 | the distance of two hashes is the number of places where they differ |
| Curation.KeptAndRejectedPartition | scripts/ref_curate.py:72-112 | every photo is kept or rejected, as often as given |
| Curation.KeptAreApart | scripts/ref_curate.py:94-109 | with all identifiers but the last present, keepers are pairwise more than eight bits apart |
| Curation.DeduplicationNeedsIdentifiers | scripts/ref_curate.py:94-105 | deduplication works for a list of identifiers if and only if all but the last are non-empty |
| Curation.RejectedHasANearKeeper | scripts/ref_curate.py:94-107 | an acceptable rejected photo has an earlier keeper within eight bits, and is said to duplicate it |
| Curation.CuratingAgainKeepsAll | scripts/ref_curate.py:72-112 | curating the keepers again keeps all of them |
| Replay.PairTurns | scripts/v4_hu1925_l0_replay.py:78-97 | the pending-message loop computes the left-to-right pairing |
| Replay.PairingFlattens | scripts/v4_hu1925_l0_replay.py:78-97 | pairing loses, adds and moves nothing |
| Replay.PairsAreTheExchanges | scripts/v4_hu1925_l0_replay.py:78-97 | pairs are exactly the places where an assistant message follows a user's |
| Replay.NormalIsWords | scripts/v4_hu1925_l0_replay.py:46-47 | the normalised text is the words with one blank between them |
| Replay.CutKeepsTheKey | scripts/v4_hu1925_l0_replay.py:153-157 | the length cut keeps a message's key if and only if its words fill the key or only white space is cut |
| Replay.Replayer.Run | scripts/v4_hu1925_l0_replay.py:126-171 | the store grows by the cut text of what was sent, up to the first refused call |
| Replay.ReplaySendsTheUnseen | scripts/v4_hu1925_l0_replay.py:126-171 | a replay sends in original order exactly the messages whose key the store lacked |
| Replay.SentExactlyWhenNotStored | scripts/v4_hu1925_l0_replay.py:126-157 | a message is sent exactly when no stored text of its role has the first 96 characters of its words; its first 8000 characters are stored |
| Replay.RefusalEndsTheReplay | scripts/v4_hu1925_l0_replay.py:126-171 | a replay goes call by call, each of one unseen message or exchange, and sends the calls up to the first refused one |
| Replay.SecondReplaySendsNothing | scripts/v4_hu1925_l0_replay.py:126-171 | a second replay sends nothing if and only if every message that was sent has the key of some text that was stored |
| Replay.SecondReplaySends | scripts/v4_hu1925_l0_replay.py:126-171 | exactly which messages a second replay sends |
| Replay.SentAgainExactlyWhenTheCutLosesTheKey | scripts/v4_hu1925_l0_replay.py:126-171 | one message is sent again if and only if the cut loses its key |
| Replay.BuriedWordIsSentAgain | scripts/v4_hu1925_l0_replay.py:153-157 | an instance: a word after 8000 blanks is sent on every replay |
| Replay.ResumeCompletes | scripts/v4_hu1925_l0_replay.py:126-171 | after a refused replay the next sends none of the sent messages and completes the store |
| Percentile.PercentilesAreOrdered | modules/onboarding/stats.py:8-16 | percentiles lie between least and greatest, are monotone across segments and roundings, and hit both ends |
| Percentile.PercentileIsNearest | modules/onboarding/stats.py:8-16 | every percentile is the whole number nearest to the exact interpolation, the even one of two as near |
| Percentile.CharLength | modules/onboarding/stats.py:59-75 | the median, 75th and 90th percentile of the sorted lengths; in order, and within the shortest and longest lines |

## Left out

- FastAPI, pydantic, SQLAlchemy, JSON logging and Prometheus exposition: only exits, rows, pages and counters matter.
- The patterns of the crisis classifier, the affect guard, the alignment guard and the age-topic check, the consolation's wording, the judge's prompt and the context builder's rendering: parameters.
- Counters by claim category and by risk flag, latency histograms and trace views: they repeat what the modelled counters say.
- The durable safety backends: taken to keep what the in-memory ones keep; collation of the database's ORDER BY is taken as code-point order.
- Ticket ids, responder round-robin and timestamps as text: a ticket is named by its place in the log.
- An absent conversation id and an empty one are one value, as every branch of the handler treats them alike.
- ChatSafety.GenerationIsAlwaysConsented: assumes that no client ever acknowledged a session id the server mints later, because minted ids are random.
- ChatService.Service.Chat: requires that no log is kept under an empty conversation id; `ChatDosage.HistoriesAlternate` shows this of every reachable state.
- A pager that raises: every call site swallows it, and the counted failure is not modelled.
- HTTP, SMTP and the bridge: a channel succeeds or fails, and the outcome may depend on how many sends came before.
- Paging.EveryPageLands: fallbacks are finite trees; a pager that is its own fallback is not expressible.
- Grounding.ScopeCache.ReadBackend: the scan's row limit is part of what the backend returns.
- RealUserGate.ParsingIgnoresPaddingAndCase: letter case is folded for the ASCII letters only, as in every other module.
- Calibration.PickThreshold: scores are exact ten-thousandths; which way a float lands at an exact half is a parameter, so every behaviour is covered; the embedder and the pair scoring are not modelled.
- Token estimates and the default trailing window of the usage endpoint: single expressions.
- Vault.FetchReturnsTheLatest: nonces have their proper length, as the random ones of the code always do.
- Vault.IdealRowsOpenOnlyAtHome: no cipher with a fixed-size tag or finitely many keys is ideal; what holds of every authentic cipher is stated exactly beside it, and how improbable the coincidence is lies outside.
- The blank-secret refusal of the cipher's constructor, and the durable vault's read-then-write upsert.
- Writeback.EveryMatchingTurnIsLoggedOnce: exports continue one another with growing ids above zero, and the conversation filter stays the same.
- The drift rules and the proposal files of the write-back: whether a window drifts is a parameter; a second proposal for one window on one day overwrites the first.
- Word and bigram statistics, prompts, timezone and date tools, embeddings, contact sheets, seed, probe and demo scripts.
