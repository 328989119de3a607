# CxOneFlow, modelled and proved in Dafny

CxOneFlow reacts to repository events by submitting scans to CheckmarxOne and feeding the results back. Its
long-lived state is not in a database but in an AMQP broker: messages soak in queues, expire into
dead-letter exchanges, are polled, requeued, resubmitted, rejected and answered. This project models the
protocols that live there, the topology they rely on and the stateful helpers around them, and proves what
every run keeps.

A protocol is a state machine: `Effects` says what one event does, `Commit` does it to the broker, `Run`
folds any sequence of events, and an event that is not enabled changes nothing. So a statement about
`Run(c, s, es)` for every `es` covers every interleaving of handlers, expiries, clock ticks, refused publishes
and redeliveries after a crash at any point; where a crash can break a result, the exact crashes are named. The handlers are
classes whose methods follow the source step by step and are proved to do what the machine says.

| files | component |
|---|---|
| `Polling`, `PollingTokens`, `PollingOrigins`, `PollingTiming`, `PollHandler`, `Backoff` | the scan polling protocol |
| `Delegated`, `DelegatedRuns`, `DelegatedOrigins`, `Countdown`, `CountdownTime`, `Agents`, `Orchestration` | the delegated (resolver) scan protocol |
| `Text`, `Topics`, `Names`, `Topology`, `Setup` | topic matching and the exchange and binding graph |
| `Kickoff` | admission of kickoff scans |
| `Grouping`, `ProjectUpdate` | the group-id cache and the project update |
| `Lex`, `Versions`, `SortedLists`, `Severities`, `DetailRows`, `Decoration`, `Summary`, `Feedback`, `Comments` | the pull-request comment |
| `Pagers`, `Tasks` | paging and the background list |
| `Options`, `Numbers`, `Runs` | shared definitions, and the law that runs compose |

Main results, hardest first.

- A started scan never has fewer than one await message before it concludes, and has exactly one until then and none
  after iff no crash falls between an accepted requeue and its ack. Feedback is published at most once per scan, the
  exact crashes that break this are named, and one of them is shown to duplicate it.
- Every delegated request carries its original signature for ever, has at most one result with a scan id unless a
  crash repeats a publish, and with agents that fail only where the code expects it exactly one result. A request no agent takes is enqueued
  exactly max(R, 1) times and then fails exactly once.
- Every message kind reaches exactly the queue it was made for, over the bindings that `Setup` is proved to declare.
- Running kickoff scans stay within limit - 1 + W for W concurrent calls; the bound is attained, and it is lost
  altogether iff a default scan tag hides the kickoff tag.
- Every comment text is recognised as our own, so decorating leaves exactly one comment; on GitHub exactly when
  fewer than 100 comments were there first.

Places where the code and its own words disagree; the code is followed.

- `cxone_service/__init__.py:150` says the service tag is updated when it changed. The merge at line 159 lets the
  existing tag win, so it never is, and the project is updated again every time (`ProjectUpdate.UpdateSettlesIff`).
- `cxone_service/__init__.py:191` assigns resolved groups on a retry even when group updates are switched off.
- The `else: raise` at `orchestration/base.py:164-165` is never reached: after two authentication failures the
  loop ends and its caller unpacks nothing (`Orchestration.Orchestrator.ExecCloneScan`).
- The comment extractor at `scm_services/gh.py:18` takes a full page for the last one (`Pagers.CommentsCompleteIff`).
- The class `A-z` in the tag validator at `workflows/resolver_scan_service.py:22` also admits brackets, backslash,
  caret and backquote; queue names stay distinct because they are percent-encoded.
- The summary counts at `workflows/pr.py:437-443` stop at the first spelling found (`Summary.SummaryAgreesIff`), and a rank
  written as a text is counted though the details do not know it (`Summary.RankAsTextOvercounts`).
- Normalised versions are there to sort packages by version, but the key at `workflows/pr.py:66` puts the CVE right behind
  them, so 2.17.1 is listed before 2.17 (`DetailRows.LongerVersionFirst`).
- A delegated push scan that has already ended when its result arrives gets no feedback (`orchestration/base.py:218-230`).
- The two-stage runner's `__aexit__` returns a true value (`agent/resolver/two_stage_runner.py:98-101`), so what its body
  raises is swallowed and no result is sent (`DelegatedRuns.TwoStageSwallows`).

## Model

| member | source | states |
|---|---|---|
| `PollingTokens.NeverLost` | workflows/scan_polling_service.py:28-85 | in every run, with crashes, redeliveries and refused publishes, a started scan that has not concluded has an await message in the broker |
| `PollingTokens.TokenConservation` | workflows/scan_polling_service.py:28-85 | in every run in which no crash hits a delivery between its accepted requeue and its ack, there is exactly one such message until the scan concludes (expired, finished, stopped or dropped) and none after |
| `PollingTokens.ConservedExactly` | workflows/scan_polling_service.py:75-79 | that condition is exact: one message per scan and none after its conclusion hold at every point of a run iff no crash falls there |
| `PollingTokens.FeedbackFaithful` | workflows/scan_polling_service.py:34-56 | in every run and for every list of services, each feedback or error message is the one meant for the token's own workflow, scan, project, moniker and details, published by a service whose guard it passed, for a token unexpired when checked and a scan that had ended that way |
| `PollingOrigins.BeginAdds` | workflows/pull_request.py:63-83 | an accepted start under a moniker without dot adds exactly one waiting await message with the event's own scan, project, moniker, workflow and details, its await topic, first delay and drop-by time; any other start adds nothing |
| `PollingOrigins.NotesFromEvents` | workflows/scan_polling_service.py:43-56 | in every run, crashes included, each feedback or error message of a scan started in it goes back to one start event and carries that event's scan, project, moniker and details, of the kind its workflow and the scan's end call for |
| `PollingOrigins.FinishedFromEvents` | workflows/scan_polling_service.py:41-56 | how a scan is known to have ended is what was first said of it in the run |
| `PollingOrigins.NotesReachReaders` | rabbit_config.py:163-192 | in every run each such message reaches exactly the queue of its workflow's readers |
| `PollingOrigins.ConclusionsExplained` | workflows/scan_polling_service.py:34-82 | in every run, crashes included, a token expired only past its drop-by time, finished only once its scan had ended, stopped only on an error response to one of its polls, and was dropped only when a channel or the publish of its replacement failed |
| `PollingOrigins.NoBudgetNeverExpires` | workflows/messaging/util.py:3-9 | a scan without a time budget is never found expired before the end of the year 9999 |
| `PollingTokens.FeedbackAtMostOnce` | workflows/scan_polling_service.py:43-56 | every service is called for every ended scan, and still at most one message is published per token when the list has one service per workflow, in every run whose crashes hit neither a replaced delivery nor one whose token already has its message |
| `PollingTokens.NotedOnceExactly` | workflows/scan_polling_service.py:43-82 | that condition is exact: one message per scan, one note per token and no noted token before its services hold at every point of a run iff no crash falls there |
| `PollHandler.OwnServicePublishes` | workflows/pr_feedback_service.py:115-121 | with one service per workflow the gather publishes exactly the message meant for the token's workflow if that service's publish is accepted, and nothing otherwise |
| `PollHandler.EveryListedPublishes` | workflows/scan_polling_service.py:49-52 | with accepted publishes the gather publishes as many messages as services of the workflow are listed, so one service per workflow is needed |
| `PollHandler.DeployedPublishes` | config/server/__init__.py:577-585 | the configured list has one service per workflow, so a poll of an ended scan publishes one message or none |
| `PollingTokens.CrashDuplicatesFeedback` | workflows/scan_polling_service.py:47-56 | from any state with a delivery in hand whose unexpired token has its message, also before the other services are called, a crash leads to a second one |
| `PollingTokens.LegacyDrains` | workflows/scan_polling_service.py:67-79 | no run ever adds a message to the legacy await and polling queues |
| `PollingTokens.RequeueLeavesLegacy` | workflows/scan_polling_service.py:67-79 | in any run, crashes of other deliveries included, an accepted requeue of a legacy token moves it to the new queues for good unless that very delivery crashes before its ack |
| `PollingTokens.CrashReturnsToLegacy` | workflows/scan_polling_service.py:75-79 | and if it does crash there, the token is back in the legacy queues |
| `PollingTokens.OneLegacyCopy` | workflows/scan_polling_service.py:67-79 | in any run a token has at most one message in the legacy queues |
| `PollingTokens.RunKeys` | workflows/scan_polling_service.py:72-75 | in every run every await message still has the routing key made for its own body |
| `PollingTokens.PlacesFollowBindings` | rabbit_config.py:84-161 | the queues the machine moves messages between are the ones the declared bindings lead each reachable message to, in the new and in the legacy topology |
| `PollingTiming.DelaysFollowLaw` | workflows/scan_polling_service.py:70-73 | in every run each message's delay follows the backoff law for its number of requeues, and that many minimum gaps have passed |
| `PollingTiming.RequeueDelay` | workflows/scan_polling_service.py:70-73 | the delay of the n-th requeue, in any run, is min(i * k^n, M) |
| `PollingTiming.PollBound` | workflows/scan_polling_service.py:34-82 | with accepted publishes a token with budget T is polled unexpired at most (T - 1) / min(i, M) times |
| `PollingTiming.DiesOnNextPoll` | workflows/scan_polling_service.py:34-36 | in any run a token overdue by its number of requeues is found expired by its next poll, which ends it |
| `Backoff.ClosedForm` | workflows/scan_polling_service.py:70-71 | the stepwise capped multiplication equals min(i * k^n, M) for every n >= 1 |
| `Backoff.NonDecreasing` | workflows/scan_polling_service.py:70-71 | delays never shrink after the first requeue, and from the start iff the first interval is within the cap |
| `PollHandler.ScanPollingService.ExecutePoll` | workflows/scan_polling_service.py:28-85 | one poll with nested try and finally leaves exactly the tabled outcome for every answer of the outside world, and is a crash-free run of the protocol |
| `PollHandler.OutcomeMeans` | workflows/scan_polling_service.py:28-85 | what each outcome of a poll means: which messages, notes and conclusions there are afterwards, with the replacement's key, delay and place, and that nothing else changed |
| `PollHandler.ScanPollingService.TryConclude` | workflows/scan_polling_service.py:43-62 | the inner try with its gather over all services: when the requeue flag is cleared and what was published and acked by then |
| `PollHandler.ScanPollingService.CallServices` | workflows/scan_polling_service.py:47-52 | the loop over the services, each with its own guard, topic and publish outcome, is a crash-free run that adds exactly their messages |
| `PollHandler.ScanPollingService.Requeue` | workflows/scan_polling_service.py:63-82 | the finally block: replaced and acked, nacked back, or dropped by the wrapper |
| `DelegatedRuns.RunSigned` | workflows/resolver_scan_service.py:142-172 | in every run, crashes included, every request and result carries the details and signature signed at kickoff |
| `DelegatedRuns.NoSignatureFails` | agent/resolver/results_agent.py:26-28 | hence no message in any reachable state fails any agent's signature check |
| `DelegatedOrigins.KickoffAdds` | workflows/resolver_workflow.py:81-91 | a kickoff under a known tag whose publish is accepted adds exactly one signed request with the event's own fields and the configured retries, any other nothing |
| `DelegatedOrigins.ResultsFromKickoffs` | workflows/resolver_scan_service.py:215-229 | in every run each result names the moniker, workflow and details of one event that asked for it |
| `DelegatedOrigins.ResultStates` | agent/resolver/runner_agent.py:146-155 | in every run, crashes included, a result says done iff it carries a scan id and exit code zero |
| `DelegatedOrigins.ScansFromAgents` | agent/resolver/runner_agent.py:140-155 | in every run the scan id and exit code of a result are those of one agent delivery |
| `DelegatedOrigins.AgentSettles` | agent/resolver/runner_agent.py:157-176 | an acknowledged request is gone, a rejected one is in the timeout queue as a rejected copy, one left unsettled stays unacknowledged; no other message is touched |
| `DelegatedOrigins.TimeoutSettles` | workflows/resolver_scan_service.py:128-174 | the timeout handler always takes a dead message off its queue: tried again with one attempt less, given up with a failure result, or lost when forged, rejected or its publish fails |
| `DelegatedOrigins.TimeoutCrashRepeats` | agent/resolver/timeout_agent.py:11-26 | a crash behind the publish has sent the same and leaves the dead message for another delivery |
| `DelegatedRuns.AtMostOneScan` | agent/resolver/runner_agent.py:76-176 | a request has at most one result with a scan id, whatever the runner, in every run whose crashes repeat nothing: an agent before its first publish, the redelivery of a request without result |
| `DelegatedRuns.OnceExactly` | agent/resolver/runner_agent.py:157-176 | exactly those crashes keep, at every point of a run, one message per request besides rejected copies and no result while it can still be taken |
| `DelegatedRuns.CrashScansAgain` | agent/resolver/runner_agent.py:157-176 | from any state an agent that crashes between its publish and its ack leads to a second scan |
| `DelegatedRuns.FeedbackStartsOnce` | agent/resolver/results_agent.py:23-46 | in the same runs a request's feedback workflow is started at most once, always for a result with a scan id |
| `DelegatedRuns.EveryRequestOneResult` | agent/resolver/runner_agent.py:76-176 | with plain single-stage agents and confirmed publishes every request is on its way without result or has exactly one; rejected copies add none |
| `DelegatedRuns.OneResultExactly` | agent/resolver/runner_agent.py:78-173 | the exact condition on one delivery under which one result is published |
| `DelegatedRuns.PlacesFollowBindings` | rabbit_config.py:194-243 | every reachable request reaches exactly its own tag's queue when published and exactly the timeout queue when dead |
| `Countdown.UntakenRequest` | workflows/resolver_scan_service.py:134-172 | in every confirmed run a request no agent takes is enqueued at most max(R, 1) times while under way, and afterwards was enqueued and expired exactly max(R, 1) times and has one failure result without scan id |
| `Countdown.CountdownEnds` | workflows/resolver_scan_service.py:134-172 | from any state the passing of time alone brings a queued request to its failure result after exactly the remaining attempts |
| `CountdownTime.FullPatience` | workflows/resolver_scan_service.py:134-172 | in every confirmed run an untaken request that is no longer under way was given max(R, 1) full timeouts since it was started, and every one under way as many as it was enqueued, but the current one |
| `Agents.ResolverRunnerAgent.Call` | agent/resolver/runner_agent.py:76-176 | the nested contexts and except blocks publish exactly the results and reach exactly the disposition the protocol model uses; stated by the outside world's answers alone: a scan that ran is reported with its id and code and done iff the code is zero, a failed call with its code and rejected, a forged request acked without a result, and when nothing is settled |
| `Agents.ResolverRunnerAgent.Body` | agent/resolver/runner_agent.py:83-162 | the context body: signature gate, capability, scan, result, and which exception leaves it |
| `Agents.ResolverTimeoutAgent.Call` | agent/resolver/timeout_agent.py:11-26 | an expired request with attempts left is sent again with one less, otherwise its failure result is sent; nothing for rejected copies; rejected iff the signature is bad or the publish raises |
| `Agents.ResolverResultsAgent.Call` | agent/resolver/results_agent.py:23-46 | a workflow is started exactly for a validly signed result with a scan id whose dispatch succeeds, done or failed; rejected iff the dispatch failed |
| `Orchestration.Orchestrator.OrchestrateScan` | orchestration/base.py:169-209 | an event leads to a delegated request or a local scan attempt, never both, and to one of them exactly when on a protected branch and asking did not fail unforeseen; the request is made under the project's own tag if it has one, else under the default |
| `Orchestration.Orchestrator.ExecCloneScan` | orchestration/base.py:139-165 | one retry with fresh credentials after an authentication failure, at most one submission |
| `Orchestration.Orchestrator.RequestScan` | workflows/resolver_scan_service.py:177-229 | a request is published only under a known tag, and each way it fails |
| `Orchestration.Orchestrator.ExecuteWorkflow` | orchestration/base.py:251-263 | the feedback workflow starts only for a scan submitted here, never beside a delegated request, and for every such scan unless starting it raises |
| `Orchestration.Orchestrator.HandleDelegatedScan` | orchestration/base.py:211-232 | the return of a delegated scan requests, clones and submits nothing; a pull request's feedback starts whenever its scan loads, a push's only while it is still executing, and what is reported otherwise |
| `Orchestration.Orchestrator.EventAndReturn` | orchestration/base.py:280-313 | an event and the return of its delegated scan together start feedback at most once |
| `Topics.MatchIsCover` | rabbit_config.py:133-161 | the matcher accepts a key iff it splits into stretches covered word by word by the pattern, as section 3.1.3.3 of the AMQP 0-9-1 specification defines topic matching |
| `Topology.ScanInReachesExactly` | rabbit_config.py:84-192 | a message under a PR or push topic reaches exactly its intended queue from Scan In iff the moniker has no dot, and no queue otherwise |
| `Topology.LegacyInReachesExactly` | rabbit_config.py:85-93 | from the legacy Scan In exchange the pull-request messages reach exactly the legacy await queue and the readers' queues, and push messages nothing |
| `Topology.DeadLetterReachesPolling` | rabbit_config.py:111-161 | an expired await message reaches exactly the polling queue of its own generation |
| `Topology.TagIsolation` | workflows/resolver_scan_service.py:95-100 | the topic of one valid tag matches the route key of another iff the tags are equal, for any moniker |
| `Topology.RequestReachesExactly` | rabbit_config.py:220-243 | a request reaches exactly its tag's queue, never the finished queue, and nothing if the tag was not declared |
| `Topology.DeadRequestReachesTimeout` | rabbit_config.py:204-218 | every dead-lettered request reaches exactly the timeout queue |
| `Topology.ResultReachesFinished` | rabbit_config.py:234-243 | results under an agent's key or the timeout handler's key reach exactly the finished queue |
| `Setup.Broker.Setup` | rabbit_config.py:20-243 | for any services the declared bindings are exactly those the routing results assume, between exchanges and queues declared before with the right type and dead-letter exchange |
| `Setup.SetupServesTags` | rabbit_config.py:194-243 | after the set-up a request under a valid tag reaches exactly that tag's queue iff some service allows the tag |
| `Setup.Broker.Scans` | rabbit_config.py:29-192 | the scan part of the set-up adds exactly the bindings the routing results assume, all between ends declared before |
| `Setup.Broker.ScanExchanges` | rabbit_config.py:38-108 | exactly the exchanges of the scan topology are added, each with its type, and nothing declared before is lost |
| `Setup.Broker.ScanQueues` | rabbit_config.py:111-189 | every scan queue is declared with its dead-letter exchange or none |
| `Setup.Broker.TagQueues` | rabbit_config.py:220-232 | exactly one queue and binding per allowed tag |
| `Names.ValidateTags` | workflows/resolver_scan_service.py:49-53 | accepts iff every tag is made of the allowed characters, otherwise names the first that is not |
| `Names.QueueNameInjective` | workflows/resolver_scan_service.py:102-106 | queue names of valid tags are equal iff the tags are |
| `Names.UnquoteOfQuote` | workflows/resolver_scan_service.py:102-106 | percent-encoding an ASCII text can be undone |
| `Names.TagAlphabet` | workflows/resolver_scan_service.py:22 | the accepted characters are the letters, digits, dash, underscore and those between Z and a, no other |
| `Names.PublishedKeysSpelled` | workflows/pr_feedback_service.py:37-39 | the routing keys of the five scan messages, written out |
| `Names.BindingKeysSpelled` | rabbit_config.py:111-192 | the keys the scan queues are bound under, written out |
| `Names.ResolverKeysSpelled` | workflows/resolver_scan_service.py:32-100 | the keys of resolver requests, tag queues and results, written out |
| `Names.QueueNamesSpelled` | workflows/resolver_scan_service.py:102-106 | a tag of unreserved characters stands in its queue's name as it is, and a bracket percent-encoded |
| `Kickoff.BoundedKickoffs` | orchestration/kickoff/__init__.py:80-101 | every interleaving of snapshot, admit, submit and scan end keeps running + admitted within limit - 1 + W |
| `Kickoff.SerialKickoffs` | orchestration/kickoff/__init__.py:80-101 | serial calls keep the limit |
| `Kickoff.BoundAttained` | orchestration/kickoff/__init__.py:82-97 | for every limit and W some interleaving reaches the bound |
| `Kickoff.UnboundedWhenHidden` | orchestration/kickoff/__init__.py:90-97 | when running scans do not carry the counted tag, serial calls exceed every number |
| `Kickoff.BoundedIffVisible` | cxone_service/__init__.py:224-228 | the bound holds in every run iff no default scan tag gives the kickoff tag another value |
| `Kickoff.TagsSubmitted` | orchestration/base.py:240-249 | the tags a kickoff scan is submitted with, key by key: a configured default wins, otherwise commit, workflow, version, service and the kickoff tag |
| `Kickoff.CountedByTag` | kickoff_services/__init__.py:34-35 | a running scan is counted iff its kickoff tag carries the moniker |
| `Kickoff.ClampedKickoffs` | config/server/__init__.py:486-489 | whatever limit is configured, at most 9 + W kickoff scans run |
| `Kickoff.KickoffOrchestrator.Execute` | orchestration/kickoff/__init__.py:80-101 | one call is a run of the machine: it leaves the other calls as they were and adds a running scan exactly when it is admitted and its scan submitted, also when starting the feedback then raises and no start is reported; which answers lead to which refusal |
| `Grouping.CacheInvariant` | cxone_service/grouping.py:36-85 | after any interleaving of lookups and purges cached and error-counted paths are disjoint and each cached id is that of the first group named exactly as the path in the answer of some lookup since the last purge |
| `Grouping.ExactMeans` | cxone_service/grouping.py:55-58 | an answer gives an id iff it is that of its first group named exactly as the path, and none iff no group is named so |
| `Grouping.ErrorsCounted` | cxone_service/grouping.py:30-71 | in every run a path that is not cached has an error counter iff a lookup of it failed or found no groups since the last purge, and it counts those |
| `Grouping.UncachedAdds` | cxone_service/grouping.py:36-71 | what an uncached lookup of one path adds to the sequence |
| `Grouping.GroupingService.FindExact` | cxone_service/grouping.py:55-58 | the loop finds the first group named exactly as the path, and none iff there is none |
| `Grouping.CacheRefines` | cxone_service/grouping.py:39-71 | with a directory fixed since the last purge a lookup gives what an uncached one would, unless an uncached path fails |
| `Grouping.InterleavedResolve` | cxone_service/grouping.py:36-80 | among any concurrent calls and purges, with the directory fixed since the last purge before each of its lookups and none of these failing, resolve_groups returns the sequence uncached lookups over the matching routes give |
| `Grouping.GroupingService.ResolveGroups` | cxone_service/grouping.py:73-80 | without lookup errors the result is the sequence of uncached lookups over matching routes |
| `Grouping.GroupingService.ResolveOne` | cxone_service/grouping.py:39-69 | cache, error counter and id for one path under the lock, for every answer: an uncached path gives and caches the id of the first group named exactly so, a cached one its cached id |
| `ProjectUpdate.ProjectService.Update` | cxone_service/__init__.py:146-198 | for every response pattern at most two updates, each keeping all groups and tag values and adding what is missing; the group list is the server's own unless a group is new, else the merged list in any order; when the cache is purged, and that a missing default, a missing or wrong service tag, a due rename or a new group each causes a send, and nothing else does |
| `ProjectUpdate.ProjectService.NewTags` | cxone_service/__init__.py:147-160 | the tags sent keep every existing value and add every missing default and the service; none are new iff nothing is missing |
| `ProjectUpdate.ProjectService.SendWithRetry` | cxone_service/__init__.py:178-198 | the retry loop: what is sent, purged and reported |
| `ProjectUpdate.TagsExtendedUnique` | cxone_service/__init__.py:147-159 | the tag map to send is determined by those conditions |
| `ProjectUpdate.UpdateSettlesIff` | cxone_service/__init__.py:150-165 | with groups and name settled, the project as sent needs no further update iff it had no service tag or the right one |
| `SortedLists.StableSortUnique` | workflows/pr.py:33-37 | two lists sorted by key with the same elements in the same order under every key are equal |
| `DetailRows.AddedCharacterised` | workflows/pr.py:32-40 | the rendered rows are exactly the added rows sorted by key with ties in order of addition, and no other list is |
| `DetailRows.RanksAscend` | workflows/pr.py:22-24 | whatever the fields hold, rendered rows have non-decreasing severity rank |
| `DetailRows.KeyOrder` | workflows/pr.py:45-75 | string order of the keys is rank first, then the rest of the key |
| `DetailRows.SastRowSpelled` | workflows/pr.py:45-47 | a SAST row's line and sort text, written out |
| `DetailRows.ScaRowSpelled` | workflows/pr.py:64-66 | an SCA row's line, with package and version together, and its sort text |
| `DetailRows.IacRowSpelled` | workflows/pr.py:69-71 | an IaC row's line and sort text |
| `DetailRows.ResolvedRowSpelled` | workflows/pr.py:73-75 | a resolved row's line and sort text |
| `DetailRows.ScaRowsOrder` | workflows/pr.py:64-66 | rows of one package and severity with components 0..999, any number of them: numeric order at the first component that differs, and where one version runs out first the order of its CVE text against the other's dot and further components |
| `DetailRows.LongerVersionFirst` | workflows/pr.py:64-66 | an input where numeric order fails: 2.17.1 is listed before 2.17 |
| `Versions.VersionThenText` | workflows/pr.py:51-66 | the same for the texts, for all versions and texts |
| `Versions.ExtendedVersion` | workflows/pr.py:51-66 | a version precedes one that extends it iff its text does not exceed the dot and components that follow there; never if the text starts above the dot |
| `DetailRows.TableLines` | workflows/pr.py:39-40 | a table of rows without line breaks has one line per row, in order |
| `Versions.VersionOrder` | workflows/pr.py:51-62 | for components 0..999 numeric order of versions is string order of their normal forms |
| `Versions.ThousandSortsLow` | workflows/pr.py:59-60 | the bound is sharp: 1000 sorts before each of 101..999 |
| `Versions.DigitsValue` | workflows/pr.py:59-60 | the digits written for a number stand for that number |
| `Versions.UnparsedKept` | workflows/pr.py:53-62 | a version with a component that is no number keeps its text |
| `Decoration.SelfRecognised` | workflows/pr.py:108-110 | every full and summary text of every decoration matches the identifier |
| `Decoration.MarkerSpelled` | workflows/pr.py:108-110 | the marker, and that line breaks before and inside it do not count |
| `Decoration.SummarySpelled` | workflows/pr.py:253-267 | the summary text written out: marker, header, annotation and summary, in that order |
| `Decoration.HeadingsSpelled` | workflows/pr.py:182-234 | each table's own title, columns and alignment |
| `Decoration.SummaryIsPrefix` | workflows/pr.py:253-271 | the full text is the summary, a line break and the details, so its lines begin with the summary's lines |
| `Decoration.PullRequestDecoration.GetContent` | workflows/pr.py:253-262 | the loops over sections and elements produce the text the two results above are about |
| `Decoration.PullRequestDecoration.AddDetail` | workflows/pr.py:175-221 | a row goes to its own table's sorted rows and nothing else changes |
| `Decoration.SectionShown` | workflows/pr.py:182-234 | starting a table's section adds to the text its headings and the table with whatever rows it has when the text is made, and does not change the summary |
| `Comments.ExactlyOneAfterDecoration` | scm_services/gl.py:15-40 | on GitLab and Bitbucket every run of decorations, foreign comments, deletions and closed threads that ends with a decoration leaves exactly one editable comment of ours, with the last text |
| `Comments.AtMostOneComment` | scm_services/bbdc.py:42-69 | and never more than one at any time |
| `Comments.GitHubExactly` | scm_services/gh.py:29-54 | on GitHub, for runs of decorations and foreign comments, one comment of ours if fewer than 100 were there before the first decoration, else one per decoration |
| `Comments.GitHubOneComment` | scm_services/gh.py:29-54 | with fewer than 100 before the first decoration exactly one comment of ours remains over any run in which it is not itself deleted, deletions of others included |
| `Comments.GitHubAtMostOne` | scm_services/gh.py:29-54 | over any run, every deletion allowed, in which ours is only posted with fewer than 100 comments listed, there is at most one comment of ours |
| `Comments.GitHubOneAfterDecoration` | scm_services/gh.py:29-54 | and exactly one after a decoration, with the text it chose |
| `Comments.DecorateOnce` | scm_services/gh.py:32-54 | one decoration leaves the chosen text in a comment of ours and adds a comment iff none of ours was visible |
| `Comments.TextWithinLimit` | scm_services/gh.py:32 | no text posted exceeds the provider's limit unless the summary itself does |
| `Comments.GitHubEditsIff` | scm_services/gh.py:36-54 | a comment is edited, and none added, iff one of the first hundred carries the marker |
| `Comments.GitLabEditsIff` | scm_services/gl.py:20-40 | iff any comment carries it, whatever became of its thread |
| `Comments.BitbucketEditsIff` | scm_services/bbdc.py:42-69 | iff one carries it that may be edited in an open thread |
| `Comments.PullRequest.DecorateGitHub` | scm_services/gh.py:29-54 | the search over the pager and the POST or PATCH are the machine's step; a comment of ours is left with the full text if it has at most 65535 characters and the summary otherwise, and every other comment is kept |
| `Comments.PullRequest.DecorateBitbucket` | scm_services/bbdc.py:42-69 | the same for the overlapping windows and the editable, unresolved comments, with 32000 characters; a closed comment is left alone |
| `Comments.PullRequest.DecorateGitLab` | scm_services/gl.py:15-40 | the same for the loop that keeps the last match, with 1000000 characters |
| `Summary.SummaryAgreesIff` | workflows/pr.py:387-473 | a shown count equals the number of detail rows of that severity iff the report spells the severity one way, as a text |
| `Summary.CountExceedsIff` | workflows/pr.py:433-445 | for any report, a shown count exceeds the true number iff no live result carries a declared text of the severity and more carry its rank as a text than as a number |
| `Summary.RankAsTextOvercounts` | workflows/pr.py:437-443 | an input where it does: one result spelled "0" in an excluded state |
| `Summary.CountNeverExceeds` | workflows/pr.py:433-445 | it never does when every live severity is a declared value |
| `Summary.DashIffNone` | workflows/pr.py:429-445 | a dash iff no live result spells the severity as a text; iff no rows when none is a number |
| `Summary.BuiltIffKnown` | workflows/pr.py:387-407 | the details can be built iff every live severity is a declared value |
| `Summary.ResultCountMap` | workflows/pr.py:428-445 | the counting loops give each severity its cell, a dash for excluded ones |
| `Summary.RowsAreShown` | workflows/pr.py:387-407 | the detail rows are exactly the results whose state and severity are not excluded, one each and in report order, under the severity that declares their label |
| `Summary.FoundSpelled` | workflows/pr.py:447-467 | a query finds the results not marked Not Exploitable with exactly that text |
| `Feedback.AddDetails` | workflows/pr.py:387-407 | the detail loop raises iff a row that is not excluded has an unknown severity; otherwise the decoration gains its title and sorted rows, and nothing if there are none |
| `Feedback.Build` | workflows/pr.py:297-311 | the whole comment: raises iff some table does; otherwise its summary counts the same report, its details are the tables with rows in the order SAST, resolved, SCA, IaC, each under its headings and sorted, and both texts are recognised later |
| `Feedback.FindingsSpelled` | workflows/pr.py:387-407 | each result's state, severity and fields are those of its row |
| `Feedback.SummaryLinesSpelled` | workflows/pr.py:447-480 | the summary's lines: the SAST, SCA and IaC counts, each from its own results |
| `Feedback.CellIsRowCount` | workflows/pr.py:447-480 | end to end: with only Not Exploitable excluded, the summary cell of a severity spelled one way is the number of its rows in that engine's table of the same comment |
| `Feedback.CountCells` | workflows/pr.py:247-249 | an engine's cells are what the counting shows for each severity that is not excluded |
| `Severities.LookupIsMembership` | workflows/__init__.py:49-58 | a label means a severity iff it is one of its declared values |
| `Severities.SeveritiesSpelled` | workflows/__init__.py:49-58 | the declared values of each severity, as an equivalence for every label |
| `Severities.RanksSpelled` | workflows/__init__.py:56-58 | the ranks |
| `Pagers.Generate` | api_utils/pagers.py:26-40 | the offset, buffer and last-page loop yields what the responses define |
| `Pagers.NextItem` | api_utils/pagers.py:30-40 | one turn of it gives the next item of what is left, or none when nothing is |
| `Pagers.BranchesComplete` | orchestration/gh.py:291-308 | under the branch extractor every item of every page is yielded exactly once |
| `Pagers.CommentsCompleteIff` | scm_services/gh.py:15-19 | under the comment extractor the listing is complete iff it fits one page |
| `Pagers.WindowsCover` | scm_services/bbdc.py:11-30 | the overlapping windows visit every item and nothing else |
| `Tasks.CallbackFindsItsFuture` | task_management/__init__.py:36-41 | in every interleaving no completion callback misses its future in the list |
| `Tasks.ExitsOnlyWhenComplete` | task_management/__init__.py:65-73 | in every interleaving the wait loop leaves iff the lock is free and every registered task has completed and had its callback |
| `Tasks.ListIsUncalled` | task_management/__init__.py:53-58 | with the lock free the list holds exactly the registered tasks without callback yet, once each |
| `Tasks.CanExit` | task_management/__init__.py:65-73 | from every reachable state with the lock free the loop can still leave |
| `Tasks.StuckForever` | task_management/__init__.py:53-58 | a callback run inline by its own registration blocks the lock for good |
| `Tasks.TaskManager.Callback` | task_management/__init__.py:36-41 | the callback's critical section is a run of the machine, and reports a miss exactly when the machine records one |
| `Tasks.TaskManager.InBackground` | task_management/__init__.py:53-58 | registration is a run of the machine: the future joins the list, or the lock stays taken for good if it had finished before its callback was attached |
| `Tasks.LeavesComplete` | task_management/__init__.py:65-73 | on an object reached by any run, a pass of the waiting loop leaves iff every registered task has completed |

## Left out

- HTTP, SCM and CheckmarxOne calls, git, zipping, subprocesses and containers: their outcomes are parameters (`Env`, `AgentEnv`, `Answers`) and every outcome is covered.
- Cryptography: an abstract `sign` and `verify` with `verify(sign(d), d)` and one key pair per broker.
- JSON, pickle and dataclass encoding: messages are values; malformed bodies are not part of the model.
- Regular expressions and jsonpath: an abstract matcher for group routes and the result of each query as a count; only the tag alphabet and topic matching are concrete.
- `int` on version components: an arbitrary function from text to an optional integer, so the results hold for whatever it accepts.
- Percent-encoding of characters outside ASCII: valid tags are ASCII, so queue names never need it.
- The snapshot of running kickoff scans is taken in one step although the listing is paged.
- A delegated kickoff: the orchestrator dereferences a missing inspector there; the kickoff model is for projects without resolver tag.
- GitLab and Bitbucket listings are taken to be complete answers of the server; GitHub's first page is modelled.
- Azure DevOps decoration: it finds its thread by a property, not by the identifier.
- A failed response inside a page extractor: it returns nothing to unpack, which raises in the caller; not part of the model.
- Broker limits (delivery limit, consumer timeout, overflow) and several brokers at once.
- Publishing: a publish that raises is taken not to have reached the broker, except where a result says otherwise (`OtherError(true)`).
- Cancelled futures in the background list: nothing in the repository cancels one.
- The "Scan Started" annotation sent beside each PR await message: it is one more message with the routing proved for annotations.
- Calls of services by `asyncio.gather` are taken one after the other; at most one of them publishes, so their order does not show.
- Leading slashes of configured group paths, and the order in which assignment rules are added.
- GitHubExactly: counts behind 100 comments are given for runs without deletions, since a deletion can shift a comment of ours onto the first page; GitHubAtMostOne and GitHubOneComment allow deletions.
- The nesting of the report: an engine's results are one sequence in report order, each with the row it would become.
- ResolveGroups: one undisturbed call on the object; concurrent calls and purges are InterleavedResolve.
- Link, image and status texts inside the comment, and configuration loading: plumbing with easy claims only.
