# Traffic management of apython_lb: model and proofs

apython_lb is an asynchronous load balancer. Three kinds of task work on the same
in-memory state: requests that are being proxied, a health-check loop and a
config-poll loop. This project models that state and proves what holds of it over
whole runs and under every interleaving, together with the sliding-window limiters
that guard the front and the metrics window that watches it all.

| file | what it holds |
|---|---|
| `Sequences.dfy`, `InsertionDict.dfy`, `Identities.dfy` | sequences without duplicates, Python's insertion-ordered dict, shared names |
| `RoundRobin.dfy`, `Fairness.dfy` | the rotating pool; how evenly and how soon it serves |
| `StickySession.dfy`, `StickyIp.dfy`, `Stickiness.dfy` | session pins, address pins, how long a pin lasts |
| `LockLevel.dfy` | the session pool one lock acquisition at a time |
| `SlidingWindow.dfy`, `RateLimiting.dfy`, `RateGuarantees.dfy` | the rate limiter against a log that forgets nothing |
| `IpTracking.dfy`, `PenaltyGuarantees.dfy` | the 404 tracker and when an address is blocked |
| `MetricsHistory.dfy` | the bounded window of counter increases |
| `ConfigTable.dfy`, `BackendManagement.dfy` | stored configs, polling, health passes, readiness |
| `Requests.dfy`, `Tickets.dfy` | the retry loop and what one request's own steps keep |
| `Protocol.dfy`, `Routing.dfy`, `AddressRouting.dfy`, `StickyRuns.dfy`, `FairRuns.dfy`, `SystemRuns.dfy` | all of it interleaved, and what requests and clients can rely on |
| `ReadinessRuns.dfy`, `GuardedRuns.dfy` | what `/health` says against what was verified; the interleaved system behind the 404 tracker |

The classes follow the program's classes field by field; each method is proved
against a specification on values, and the theorems are about those values. A step
of `Protocol` is what one task does between two points where it really suspends: no
lock body in the pool classes awaits anything that suspends, so nothing runs inside
such a step. `LockLevel` drops that assumption for the session pool and lets any task
run between two lock acquisitions. In that finer model the unguarded eviction in
`get_next`, meant for sessions without a pin, can be reached for one that has a pin
while a delete is half done (`LockLevel.EvictionMidDelete`): exactly when the pin it
finds has left the pool (`LockLevel.MissesPinnedIff`). On one event loop nothing
suspends between the two acquisitions, so the program as it stands does not make
that run.

What comes from outside is a parameter: the clock (a non-decreasing `real`), the
outcome of every upstream call, the servers a probe finds healthy, the rows the
database returns, and the order in which Python walks a set. Requirements on
settings are the program's own: at least one attempt per request and at least one
entry in each pin map.

Where the code and its documentation part ways the model follows the code:

- The repository's README promises that `/health` stays red until every configured
  backend has been verified. The code counts stored verdicts, also stale ones: on a
  name since removed (`ReadinessRuns.LeftoverVerdictFakesReadiness`), on a name removed
  and added again, whose new pool no probe has visited
  (`ReadinessRuns.ReaddedNameFakesReadiness`), and on a config since replaced
  (`ReadinessRuns.ChangedConfigFakesReadiness`). `ReadinessRuns.ReadinessIsRightIff`
  says exactly when the answer is right, where a name is verified if the last completed
  probe of its current pool object found a server (or, read strictly, found one for the
  config the name has now). While polls only add names the answer is right
  (`ReadinessRuns.GreenMeansVerified`).
- Address pins live in one map for all pools and are not checked against the pool
  asked for (`SystemRuns.AddressPinsCrossPools`). With one address-routed pool that
  stays configured this cannot be noticed (`AddressRouting.UncheckedLookupIsSafe`).
- A penalty entry that has run out but has not been removed yet keeps a further 404
  from being punished. In the order the request wrapper uses this takes two requests
  of one address that overlap, of which one lasts longer than a whole penalty issued
  meanwhile (`PenaltyGuarantees.LingeringEntryShields`); requests shorter than the
  penalty duration, or with no other 404 of their address under way, are safe.
  `PenaltyGuarantees.WrapperOrderMeetsIntentIff` says exactly when it happens.
- The "lifetime" 404 count is dropped by a sweep that finds its address idle; it counts
  the 404s since then (`PenaltyGuarantees.LifetimeCountIs`).
- `get_current` says it returns a session's pin "if still valid" but does not look;
  in a sound pool it makes no difference (`StickySession.PeekAgreesWithChoose`).
- The Retry-After header can be up to a twentieth of a second short, for waits just
  above a whole number of seconds (`RateGuarantees.HeaderSufficesIff`).

## Model

| member | source | states |
|---|---|---|
| RoundRobin.AsyncRoundRobin.constructor | classes/round_robin.py:8-12 | the rotation starts at the first item of any list, duplicates included |
| RoundRobin.AsyncRoundRobin.Add | classes/round_robin.py:14-22 | list and cursor after adding one item are the wheel's Add |
| RoundRobin.AsyncRoundRobin.AddAll | classes/round_robin.py:14-20 | a list argument adds its items one after the other |
| RoundRobin.AsyncRoundRobin.GetNext | classes/round_robin.py:28-36 | returns the item due next and turns the wheel; an empty pool returns nothing and stays put |
| RoundRobin.AsyncRoundRobin.GetCurrent | classes/round_robin.py:38-44 | the item due next, without turning |
| RoundRobin.AsyncRoundRobin.Delete | classes/round_robin.py:46-57 | the cursor arithmetic, wrap and empty cases included, removes the first occurrence from the side of the wheel it is on |
| RoundRobin.NextRotates | classes/round_robin.py:28-36 | a call moves the front of the order of service to its end and changes no membership |
| RoundRobin.DeleteKeepsOrder | classes/round_robin.py:46-55 | deleting takes the item out of the order of service and moves nobody else |
| RoundRobin.AddKeepsOrder | classes/round_robin.py:14-21 | a new item goes to the end of the list and leaves the others' order of service alone |
| Fairness.FullLap | classes/round_robin.py:28-36 | a full lap serves every member in order and then starts over |
| Fairness.Fair | classes/round_robin.py:28-36 | over any number of consecutive calls no member is served more than once more than another |
| Fairness.EveryCallServes | classes/round_robin.py:28-36 | while an undeleted item is in the pool every call returns something |
| Fairness.BoundedWaiting | classes/round_robin.py:14-57 | an undeleted item at place k is served within k + 1 calls plus one per insertion, whatever else comes and goes |
| InsertionDict.ClearValue | classes/sticky_ip.py:89-93 | clearing a backend's keys one by one removes exactly them and keeps the order of the rest |
| StickySession.StickyRoundRobin.constructor | classes/sticky_session.py:34-38 | a fresh rotation and no pins |
| StickySession.StickyRoundRobin.GetNext | classes/sticky_session.py:61-93 | item and new state are the pool's Choose: pin, re-pin or plain rotation, with the oldest pin evicted at capacity |
| StickySession.StickyRoundRobin.GetCurrent | classes/sticky_session.py:95-111 | the pin if there is one, unchecked, else the item due next |
| StickySession.StickyRoundRobin.Delete | classes/sticky_session.py:113-128 | the item leaves the rotation and its sessions lose their pins |
| StickySession.StickyRoundRobin.Replace | classes/sticky_session.py:130-149 | deletes some ordering of the vanished items and adds some ordering of the new ones |
| StickySession.StickyRoundRobin.ReleaseSession | classes/sticky_session.py:155-160 | drops one session's pin and nothing else |
| StickySession.ChooseIsSound | classes/sticky_session.py:61-93 | a choice is a member, changes no membership, keeps pins inside the pool and within the cap, and pins only sessions that had no pin |
| StickySession.ChooseTurns | classes/sticky_session.py:61-93 | a pinned session gets its pin and nothing moves; anybody else gets the item due next, which goes to the end of the order of service; only a session without a pin is pinned, and only the oldest pin can make room |
| StickySession.PeekAgreesWithChoose | classes/sticky_session.py:95-111 | in a sound pool the unchecked peek is a member and is what the next call returns |
| StickySession.DropIsSound | classes/sticky_session.py:113-128 | after a delete the pool lacks exactly that item and no pin dangles |
| StickySession.SwapEffect | classes/sticky_session.py:130-149 | for every walking order of the two sets: no duplicates, exactly the new members, survivors served in their old order, exactly the survivors' pins kept |
| StickyIp.StickyIP.Pin | classes/sticky_ip.py:29-37 | a new address evicts the oldest at capacity, a known one keeps its place |
| StickyIp.StickyIP.GetNext | classes/sticky_ip.py:43-60 | returns the pin, or asks the pool and pins what it gets |
| StickyIp.StickyIP.Release | classes/sticky_ip.py:76-80 | drops one address's pin |
| StickyIp.StickyIP.DeleteBackend | classes/sticky_ip.py:83-93 | drops, and returns, exactly the addresses pinned to that backend |
| StickyIp.RouteAgreesWithCheckedRoute | classes/sticky_ip.py:43-60 | the unchecked lookup answers like a membership-checked one exactly when the address has no pin or its pin is in the pool |
| Stickiness.StepKeepsPin | classes/sticky_ip.py:29-37 | one step makes nobody younger than a pinned client but one that just got its pin, and keeps the pin while younger and new clients together are fewer than the cap |
| Stickiness.PinLasts | classes/sticky_ip.py:29-37 | a pin survives every run that neither releases, re-pins nor deletes it while the clients younger than it and those that get a pin, each counted once, are fewer than the cap |
| Stickiness.RoomForAll | classes/sticky_ip.py:29-37 | so no pin is ever evicted while there are at most cap-many clients in all, however often they are pinned anew |
| Stickiness.StepsAreOperations | classes/sticky_ip.py:29-93 | the steps of these runs are pinning with the oldest evicted at capacity, releasing one client, and dropping exactly a backend's pins |
| Stickiness.NeverOverCap | classes/sticky_session.py:84-90 | no run takes a pin map over its cap |
| Stickiness.RepinEvictsNobody | classes/sticky_ip.py:32-36 | re-pinning a known client moves no key and evicts nobody |
| Stickiness.FreshPinIsYoungest | classes/sticky_ip.py:32-36 | a pin just made has nobody younger, so cap-many newcomers are needed to evict it |
| LockLevel.StepKeepsInv | classes/sticky_session.py:76-128 | every lock-sized step keeps pins inside the pool or at an item whose delete is under way |
| LockLevel.PinsAreBacked | classes/sticky_session.py:76-128 | so in every interleaving; with no delete under way all pins are valid and the eviction runs only for a session without one |
| LockLevel.MissesPinnedIff | classes/sticky_session.py:76-90 | a lookup that finds its session pinned goes on to the eviction exactly when the pin is no member, and then the item's delete is under way |
| LockLevel.EvictionMidDelete | classes/sticky_session.py:83-90 | an interleaving in which a half-done delete lets the eviction run for a pinned session of a full map |
| LockLevel.UninterruptedGetNext | classes/sticky_session.py:76-93 | the lock-sized steps run in a row are the atomic get_next |
| LockLevel.UninterruptedDelete | classes/sticky_session.py:113-128 | the two halves of a delete run in a row are the atomic delete |
| LockLevel.SingleSteps | classes/round_robin.py:14-36 | the steps under one lock alone are a plain get_next, an add of one member and the release of one session |
| RateLimiting.RateLimiter.SweepStale | classes/rate_limiter.py:44-54 | removes exactly the addresses whose last timestamp left the window |
| RateLimiting.RateLimiter.Hit | classes/rate_limiter.py:60-91 | decision and new state after counting, sweeping and pruning; the wait is rounded to a tenth; a limit below 1 raises |
| RateLimiting.RateLimiter.GetUsage | classes/rate_limiter.py:97-108 | number of live timestamps and what remains of the limit |
| RateLimiting.RateLimiter.GetAll | classes/rate_limiter.py:110-125 | the addresses with live timestamps and their counts |
| RateLimiting.RateLimiter.Reset | classes/rate_limiter.py:144-148 | forgets one address |
| RateLimiting.RateLimiter.ClearAll | classes/rate_limiter.py:150-154 | forgets every address |
| RateLimiting.RunsAgree | classes/rate_limiter.py:44-91 | after any run the pruned lists show every later window the same timestamps as the log that forgets nothing |
| RateLimiting.Refines | classes/rate_limiter.py:44-154 | every decision, exact wait, usage count and snapshot of every run equals that of the log that forgets nothing |
| RateLimiting.SweepPeriodIsUnobservable | classes/rate_limiter.py:67-72 | two limiters that differ only in how often they sweep give the same answers |
| RateGuarantees.LogIsAdmissions | classes/rate_limiter.py:89-91 | the reference log is the list of admissions since the last reset or clear |
| RateGuarantees.AdmissionsDecide | classes/rate_limiter.py:74-91 | in every run a request is admitted iff fewer than `limit` earlier admissions of its address are younger than the window, and is otherwise told to wait until the oldest of those leaves it |
| RateGuarantees.UsageCountsAdmissions | classes/rate_limiter.py:97-108 | a usage query is told how many admissions are younger than the window |
| RateGuarantees.SnapshotCountsAdmissions | classes/rate_limiter.py:110-125 | a snapshot lists exactly the addresses with such admissions and their numbers |
| RateGuarantees.AdmissionsAreSpaced | classes/rate_limiter.py:74-91 | the (i + limit)-th admission comes at least a window after the i-th |
| RateGuarantees.NeverOverLimit | classes/rate_limiter.py:74-91 | no half-open interval as long as the window holds more than `limit` admissions |
| RateGuarantees.StoredListsAreShort | classes/rate_limiter.py:74-91 | stored lists stay sorted and at most `limit` long |
| RateGuarantees.OnlyRecentAreKept | classes/rate_limiter.py:44-72 | right after every sweep_every-th request only addresses with an admission in the window, and the requester, are remembered |
| RateGuarantees.RaisesIffLimitBelowOne | classes/rate_limiter.py:77-79 | a hit indexes an empty list exactly when the limit is below 1, in every run |
| RateGuarantees.WaitIsExact | classes/rate_limiter.py:77-87 | with no reset of the address and whatever other addresses do, every request of the address before the announced instant is rejected, and its first one from then on is admitted |
| RateGuarantees.HeaderIsClose | decorators/rate_limit.py:54 | wait - 0.05 <= header < wait + 1.05 |
| RateGuarantees.HeaderSufficesIff | decorators/rate_limit.py:54 | the header is too short exactly when the wait is less than a twentieth of a second above a whole number of seconds, or exactly a twentieth and that tie is rounded down |
| RateGuarantees.HeaderCanBeShort | decorators/rate_limit.py:54 | a run of two hits whose second is told to wait 8.04 seconds, announced as less whichever way it is rounded |
| IpTracking.IPTracker.SweepStale | classes/ip_tracker.py:51-69 | drops expired penalties, then the logs and lifetime counts of idle addresses that are not penalised |
| IpTracking.IPTracker.Record404 | classes/ip_tracker.py:75-110 | answer and new state, sweep, lifetime count and the two process-wide counters included |
| IpTracking.IPTracker.IsPenalised | classes/ip_tracker.py:125-128 | answer, and removal of an entry that has run out |
| IpTracking.IPTracker.Get404Count | classes/ip_tracker.py:145-157 | number of 404s in the window, and the lifetime count |
| IpTracking.LogTracks | classes/ip_tracker.py:60-96 | pruning and sweeping lose no 404 that a later window could contain |
| IpTracking.WindowCountIsRecent | classes/ip_tracker.py:145-150 | the window count is the number of 404s of the run younger than the window |
| IpTracking.RecordCounts | classes/ip_tracker.py:92-110 | a 404 is penalised exactly when the 404s of its address younger than the window, itself included, reach the threshold and no entry is found |
| PenaltyGuarantees.CheckTellsBlocked | classes/ip_tracker.py:262-271 | in every run a check answers "blocked" exactly on [T, T + duration) of some penalty issued at T: never extended, never cut short |
| PenaltyGuarantees.RecordMeetsIntentIff | classes/ip_tracker.py:98-110 | a 404 is penalised when over the threshold and not blocked, if and only if no lingering entry is found for an address over the threshold |
| PenaltyGuarantees.WrapperOrderMeetsIntentIff | decorators/apython_lb.py:69-85 | for a 404 of a request that was let through the intent holds iff the request did not, over the threshold, outlive a penalty of its address issued after its check whose entry no check or sweep removed |
| PenaltyGuarantees.WrapperOrderMeetsIntent | decorators/apython_lb.py:69-85 | so it holds for a request that took less than the duration, or had no other 404 of its address under way |
| PenaltyGuarantees.SequentialCountDecides | decorators/apython_lb.py:69-85 | with one request of an address at a time the count on the full log alone decides |
| PenaltyGuarantees.LingeringEntryShields | classes/ip_tracker.py:101 | a run in the wrapper's order, with two overlapping requests, in which a lingering entry keeps a 404 from being penalised |
| PenaltyGuarantees.LifetimeCountIs | classes/ip_tracker.py:51-69 | the lifetime count is the number of 404s since the last sweep, one every sweep_every 404s, that found the address with no 404 in the window and no penalty in force |
| MetricsHistory.MetricsHistory.SampleNow | classes/metrics_history.py:126-158 | a pass over all metrics, families and samples is its observations applied in order |
| MetricsHistory.CounterSeries | classes/metrics_history.py:139-158 | the bounded series of a counter is the tail of its list of increases |
| MetricsHistory.GaugeSeries | classes/metrics_history.py:156-158 | the bounded series of a gauge is the tail of its values |
| MetricsHistory.DeltasTelescope | classes/metrics_history.py:153-155 | clamped increases from any point add up to at least the net increase, and to exactly that iff the counter never dropped |
| MetricsHistory.WindowAccountsForCounter | classes/metrics_history.py:119-158 | so the points shown add up to the latest value less the value before the window (zero at the start) iff the counter did not drop inside it |
| MetricsHistory.PassReadsAll | classes/metrics_history.py:134-142 | a pass reads exactly the samples of each key, in family and sample order, with their family's kind and at the time of the pass, and nothing of keys named ..._created |
| MetricsHistory.DashboardShowsCounter | classes/metrics_history.py:126-158 | over any passes a counter's series shows its last points at the times of their passes, and adds up to the net increase inside the window iff the counter did not drop there |
| MetricsHistory.DashboardShowsGauge | classes/metrics_history.py:156-158 | over any passes a gauge's series shows its last values at the times of their passes |
| MetricsHistory.DashboardSkipsStamps | classes/metrics_history.py:137-138 | creation stamps never get a series |
| ConfigTable.AsyncDb.InsertConfig | classes/sqlite_db.py:65-72 | stores a row under an unused id with the current time |
| ConfigTable.AsyncDb.GetAllConfigs | classes/sqlite_db.py:74-92 | lists every row once, latest stamp first |
| ConfigTable.AsyncDb.UpdateLastSelected | classes/sqlite_db.py:110-117 | stamps one row, and does nothing for an unknown id |
| ConfigTable.AsyncDb.DeleteConfig | classes/sqlite_db.py:119-123 | removes one row |
| ConfigTable.StoredIffInserted | classes/sqlite_db.py:65-123 | after any history a row is stored iff it was inserted and not deleted since, under the name and with the data it was inserted with |
| ConfigTable.WinnerIsFirst | classes/backend_manager.py:145-152 | the first row of a name wins |
| ConfigTable.LastConfigWins | classes/backend_manager.py:141-152 | after any history at increasing times a name has a winner iff a row of it survives, and the winner is the surviving row inserted or selected last |
| ConfigTable.LastOfNameIsUnique | classes/backend_manager.py:141-144 | only one row can be that |
| BackendManagement.BackendManager.GetReadiness | classes/backend_manager.py:76-109 | the three numbers /health reports: ready on a fresh install; with required names iff each of them has a non-empty verdict; the counts of what was asked for and found |
| BackendManagement.BackendManager.PollConfigsOnce | classes/backend_manager.py:135-176 | configs become the winners, surviving pools keep their object untouched, new names get a new empty pool, dropped names lose their gauge (their verdicts stay), one broadcast iff the configs changed |
| BackendManagement.BackendManager.ApplyHealth | classes/backend_manager.py:217-241 | sets the gauge and stores the verdict even if the pool is gone; otherwise drops the pins of dead servers and replaces the pool |
| BackendManagement.BackendManager.HealthPass | classes/backend_manager.py:205-250 | after a pass every probed pool is exactly its healthy set, no duplicates, pins inside; the gauge shows the size of a stored verdict; one broadcast iff a verdict changed |
| BackendManagement.ReadyIffAllHealthy | classes/backend_manager.py:104-109 | while only configured names have verdicts, default readiness means every configured name is healthy |
| BackendManagement.ReadinessIff | classes/backend_manager.py:94-109 | for any minimum the stored verdicts answer like the verified names iff enough of those are verified or the stale verdicts are fewer than what is missing |
| BackendManagement.DefaultReadinessIff | classes/backend_manager.py:94-109 | so by default iff all configured names are verified or the stale verdicts are fewer than the unverified names |
| BackendManagement.RequiredReadinessIff | classes/backend_manager.py:100-102 | with required names iff none of them has a stale verdict or one of them has no healthy verdict at all |
| BackendManagement.MinimumIff | classes/backend_manager.py:104-109 | asked for a minimum, /health is green iff that many names are healthy or as many as are configured |
| BackendManagement.ClampNeverBlocks | classes/backend_manager.py:104-109 | no minimum blocks readiness once all configured names are healthy |
| BackendManagement.RequiredNamesCount | classes/backend_manager.py:100-102 | with required names, ready iff the two reported counts agree |
| Requests.Wrapper | decorators/apython_lb.py:166-323 | answer, servers tried, pool, pins, tracker and counters after a request; a blocked request touches neither pool, pins nor counters |
| Requests.TryOnce | decorators/apython_lb.py:202-321 | one turn of the loop: selection, outcome, circuit breaker, counters, retry decision |
| Tickets.OutcomeIsConsistent | decorators/apython_lb.py:278-321 | attempts, failures, answer and phase stay in step; only retry-safe failures are followed by another attempt |
| Tickets.FinishIsConsistent | decorators/apython_lb.py:202-321 | the loop left alone ends with an answer and a consistent history |
| Tickets.FinishIsAccounted | decorators/apython_lb.py:210-321 | over a request left alone the selection counter grows by the servers tried, the retry counter by the attempts written off, and one of the four others by one exactly for its own kind of failure answer |
| Tickets.FinishHeeds | decorators/apython_lb.py:202-321 | the loop hears the outcomes one after the other; the tracker records only the 404 that ended the request, which is answered 429 iff that is penalised |
| Tickets.AnswersBefit | decorators/apython_lb.py:256-321 | a reply is passed on with its status, or is a 404 answered 429; 502 and 504 tell the kind of the failure that ended the request, 500 a surprise, 503 that all it heard failed |
| Tickets.IdempotentIff | decorators/apython_lb.py:50-66 | the methods that may be repeated are the six of section 9.2.2 of RFC 9110, in any case of their letters, and no others |
| Tickets.RetriesIff | decorators/apython_lb.py:278-310 | after a failure the request tries again iff attempts are left and its method may be repeated or it failed to connect |
| Tickets.AtMostOnce | decorators/apython_lb.py:58-66 | once a request whose method may not be repeated has tried a further server, its earlier attempt is known to have failed to connect |
| Tickets.SelectionsMinusRetries | decorators/apython_lb.py:210-321 | selections exceed retries by one iff the last attempt is open or was ended by a reply or an unexpected error |
| Tickets.SelectionIs | decorators/apython_lb.py:202-218 | under all three policies: a request with a pin of its policy's kind is sent there and nothing moves; any other gets the server due next and the pool turns; only the policy's own kind of pin is added |
| Tickets.SelectEffect | decorators/apython_lb.py:204-207 | under all three policies selecting changes no membership, and the choice is a member if the pins are |
| Tickets.TripEffect | decorators/apython_lb.py:280-281 | a failed server leaves the pool, the session pins and the address pins, and nothing else does |
| Protocol.ProbeEffect | classes/backend_manager.py:224-241 | a probe makes the pool exactly the healthy set and drops exactly the pins of servers the pool lost |
| Protocol.PollEffect | classes/backend_manager.py:145-171 | a poll leaves every old pool alone and gives names it adds pools of their own |
| Protocol.SecondPollChangesNothing | classes/backend_manager.py:135-176 | a second poll over the same rows changes nothing |
| Protocol.StepKeepsInv | classes/backend_manager.py:205-241 | every step of every task keeps the system invariant |
| Protocol.EveryStateIsSafe | classes/backend_manager.py:135-241 | in every interleaving each registered pool is duplicate-free and inside the latest verdict, pins are sound and bounded, and names share no pool |
| Routing.ChoicesAreHealthy | decorators/apython_lb.py:204-216 | a round-robin or session request with a registered pool is given a server that passed the latest completed check, or 503 iff the pool is empty |
| Routing.ProbeMakesPoolHealthy | classes/backend_manager.py:234-241 | right after a probe the registered pool equals the verified set |
| Routing.TriesAreDistinct | decorators/apython_lb.py:202-310 | while nothing is added to its pool, a request tries pairwise distinct members, at most as many as the pool had and as attempts allow, and what it wrote off stays gone |
| Routing.FailureTripsBreaker | decorators/apython_lb.py:278-281 | the moment an attempt fails its server is out of pool and pins |
| Routing.Terminates | decorators/apython_lb.py:202-321 | a request is answered within two of its own steps per attempt, whatever others do, and is never stuck before |
| Routing.AnswersFollowOutcomes | decorators/apython_lb.py:256-321 | in every state of every run an answered request was told what its last attempt came to |
| Routing.FailureIsRetriedIff | decorators/apython_lb.py:278-310 | in every sound state a failure is followed by another attempt iff attempts are left and the method may be repeated or nothing was sent |
| Routing.NonIdempotentReachesOnce | decorators/apython_lb.py:50-66 | in every state of every run, also while an attempt is under way, every attempt but the last of a request whose method is none of the six, letter by letter, was a ConnectError or ConnectTimeout |
| AddressRouting.RunStaysHome | classes/sticky_ip.py:43-93 | with one address-routed pool that stays configured, every pin points into it at every suspension point |
| AddressRouting.UncheckedLookupIsSafe | classes/sticky_ip.py:43-60 | so the unchecked lookup agrees with a checked one and returns a verified member |
| AddressRouting.AddressTriesAreDistinct | decorators/apython_lb.py:202-310 | and address requests never try a server twice there |
| FairRuns.RequestsAreSpreadEvenly | decorators/apython_lb.py:202-218 | in every interleaving, while a pool keeps its members, the requests without a pin are spread over them with counts that differ by at most one |
| FairRuns.WaitIsBounded | classes/round_robin.py:28-57 | in every interleaving a server that stays in its pool at place k is given to one of the next k + 1 requests without a pin, plus one for each server that comes in |
| StickyRuns.SessionSticks | classes/sticky_session.py:61-93 | in every interleaving, while b stays in the pool and the sessions younger or newly pinned, each counted once, are fewer than the cap, every request of the session to that pool is sent to b |
| StickyRuns.AddressSticks | classes/sticky_ip.py:43-60 | in every interleaving, while no request fails on b, no health pass finds it down and the addresses younger or newly pinned, each counted once, are fewer than the cap, every address-routed request is sent to b, whatever pool it asks |
| SystemRuns.CountersBalance | decorators/apython_lb.py:218-283 | for every name and in every interleaving, selections less retries counts the requests waiting or ended by a reply or an unexpected error |
| SystemRuns.CountersCountSteps | decorators/apython_lb.py:218-300 | the selection counter of a name is how often its requests were given a server, its retry counter how often their attempts failed |
| SystemRuns.PoolIsFetchedOnce | decorators/apython_lb.py:188-200 | a request keeps the pool object its name had when it arrived, whatever polls do later, and its policy, method, address and session |
| SystemRuns.PassVisitsEachOnce | classes/backend_manager.py:205-250 | between the beginnings of two health passes each name configured at the first is visited exactly once, and no other |
| ReadinessRuns.ReadyMeansAllVerified | classes/backend_manager.py:94-109 | in runs that remove no config /health is green iff every configured name has a non-empty stored verdict, and no minimum blocks it then |
| ReadinessRuns.ReadinessIsRightIff | classes/backend_manager.py:94-109 | in every state of every run and for any minimum /health answers as the names verified by the probes of their current pools would, iff enough are verified or too few stale verdicts are left over |
| ReadinessRuns.RequiredIsRightIff | classes/backend_manager.py:100-102 | the same for required names |
| ReadinessRuns.GreenMeansVerified | classes/backend_manager.py:94-109 | while polls only add names, the healthy names are the verified ones and the default answer is green iff all configured names are verified |
| ReadinessRuns.LeftoverVerdictFakesReadiness | classes/backend_manager.py:98-109 | a run that removes a config and makes /health green with the only configured name unchecked |
| ReadinessRuns.ReaddedNameFakesReadiness | classes/backend_manager.py:154-171 | a run that removes a name and adds it again and makes /health green with its new pool empty and never probed |
| ReadinessRuns.ChangedConfigFakesReadiness | classes/backend_manager.py:154-161 | a run that replaces a config and keeps /health green with none of its servers checked |
| SystemRuns.AddressPinsCrossPools | classes/sticky_ip.py:50-54 | a run with two address-routed pools in which a request to one is sent to the other's server |
| GuardedRuns.PenalisedContactNobody | decorators/apython_lb.py:180-196 | in every guarded run a request gets through iff no issued penalty covers its check and its name has a pool; one inside a penalty leaves the system as it was and never has a selection or attempt |
| GuardedRuns.NotFoundIsPunishedIff | decorators/apython_lb.py:69-85 | in every guarded run a 404 is answered 429 iff its address is over the threshold and not blocked, unless the request outlived a penalty issued after its own check |
| GuardedRuns.SafeBehindTheGate | decorators/apython_lb.py:180-196 | every guarded run is a run of the system, so its invariant holds in every state |
| GuardedRuns.OthersLeaveTracker | decorators/apython_lb.py:69-85 | nothing but a check on entering and a 404 reaches the tracker |

## Left out

- Requests.Wrapper: nothing else runs during the loop; `Protocol` uses the same pick and outcome steps with everybody else in between. The URL rewrite, headers, body and cookie signing are not modelled, and the session id is given.
- BackendManagement.BackendManager.HealthPass: no other task runs between two names; `Protocol` interleaves them.
- RateLimiting.RateLimiter.Hit: rounding is any multiple of a tenth within a twentieth, so it does not fix which way a tie goes. Times are exact reals, not floats.
- Changing a limiter's settings while it runs: timestamps already pruned for a short window cannot be recovered for a longer one.
- Manual penalties, lifting, deleting and resetting in the 404 tracker.
- ConfigTable.AsyncDb.GetAllConfigs: rows with equal stamps may come in any order; the database file, its locking and its retries are not modelled.
- Releasing a pin from outside: no request, pass or poll does it, so `StickyRuns` has no such step; `Stickiness.PinLasts` allows for it.
- Sharing of a list between a caller and the pool built from it.
- Backends are never the empty string, because every pool entry is built as protocol, "://" and host.
- Upper-casing a request method covers ASCII letters.
- Name resolution: a probe's result and an attempt's outcome already include it.
- The sparkline drawing, templates, broadcasts to clients (counted only), management routes, IP restriction, basic authentication and logging.
- The web application firewall: it calls a foreign library whose rules are not part of this model.
- Several worker processes: each has its own state.
