# Verification model of the chaos platform

Dafny models of the concurrent and stateful parts of this repository, with proofs of what they promise:
the Redis-backed idempotency protocol and the order flow that drives it, the circuit breaker, the rate
limiters, the retry policy, the two agent pipelines, and the evaluation arithmetic around them.

Run `dafny verify dfyconfig.toml` in this directory to check everything.

## How the model is built

- **Redis.** `Redis.FakeRedis` has the dictionaries of the in-memory server and its methods change them in
  place. What a command does to one key is a function on `Redis.Entry` (value, counter, sorted set, expiry),
  and every method is proved to apply exactly that function to its key and to leave all other keys alone.
  A key is gone when the clock is strictly later than its expiry.
- **Steps.** Each Redis command is one atomic step. `IdempotencyProtocol` and `BreakerProtocol` let any number
  of requests on one key interleave between their commands, with a clock that never goes back, requests that
  crash or are abandoned, and errors of the store. A run is a list of moves, and theorems speak of every run.
- **Errors.** `StorageException` can strike at any step of reserve and wait, a terminal write can be lost, and each command
  of the breaker can raise a RedisError, which nothing in `create_order` catches.
- **Methods against the protocol.** The classes `IdempotencyStore.Store` and `OrderService.OrderService` are the
  program's methods. Between two of their commands the key is replaced by whatever the world
  `env: nat -> World` says. `Reserve`, `WaitForResult` and `CreateOrder` are proved to be paths of the same
  step functions (`Resume`, `Leave`) that the protocol's requests follow.
- **Evaluation.** Loops of the Python code are Dafny loops whose contracts equate their results with functions
  or counts; the theorems are lemmas about those.

## What holds, and what does not

- With no `StorageException` in a reserve and each owner finished before its record goes stale, at most one request
  per key is an unfinished owner. Three parts of the code make the hypotheses necessary, and `IdempotencyLimits`
  exhibits the runs: `create_order` finalizes even after a failed reserve, `finalize_idempotency_success` and `save_failed`
  overwrite without an owner check, and a lost finalize leaves the reservation to go stale.
- `created_at` is the floored second of the clock, so a reservation can be taken over up to one second
  before the pending TTL has passed (`FlooredSecondAllowsTwoOwners`, `StaleWithinASecond`).
- With no hypothesis on timing or errors, a release or a takeover never removes a terminal record or somebody
  else's reservation, and one reservation is deleted at most once.
- A repeated order is answered from the first one's record: with its order id, or with its status and error; the key
  refuses any other order (`OrderTwice`). Within the TTL no other outcome is ever written (`NothingFollowsWithinTheTtl`).
- A RedisError of the breaker after the order was saved ends `create_order` with 503, records no outcome and leaves the
  owner's reservation on the key (`LostReportStrandsTheReservation`). A call past the
  deadline check records its outcome exactly when the breaker's commands reach their last write, and an owner's
  reservation goes exactly when none of those commands raises and the terminal write is not lost.
- No run wedges the key (`KeyNeverWedges`): a pending TTL after any run, a request that is alone is answered. It is told to wait
  only if a record that still answered its SET NX is gone at its GET.
- OPEN is not left by timeout alone: a probe that reports late closes the circuit in whatever state it is. What is
  claimed is that one probe at a time holds the lock, that no run wedges the circuit, and that its counts are those of
  the history.
- Runs of the sliding limiter keep every half-open interval of one window within the limit. With both ends included only
  the rules with limit 0 do (`ClosedWindowsFitOnlyLimitZero`); a single run does when no two of its calls lie exactly
  one window apart. The fixed limiter keeps to twice the limit, and twice is reached.
- `execute_plan` and the refactored pipeline agree exactly on plans whose steps pass the tool schemas. An order without
  a quantity is one that differs: the old loop orders one piece, the new executor refuses the step.

## Model

| member | source | states |
|---|---|---|
| IdempotencyProtocol.AtMostOneOwner | chaos_service/store.py:152-334 | in every interleaving without storage errors in which owners finish before their record is stale, two unfinished owners of a key are the same request |
| IdempotencyProtocol.HeldOfRun | chaos_service/store.py:283-334 | the invariant behind it: under those hypotheses the live record on the key is the owner's |
| IdempotencyProtocol.TokensOfRun | chaos_service/store.py:166-175 | in every run, with no hypothesis: tokens of built and owned records are distinct, and no deleted token is ever on the key again |
| IdempotencyProtocol.NothingElseIsRemoved | chaos_service/store.py:219-230 | a live record disappears only by expiry, by a terminal write, by its own owner's release, or as a stale reservation that is taken over |
| IdempotencyProtocol.DeletedAtMostOnce | chaos_service/store.py:317-334 | of any number of concurrent takeovers and releases of one reservation at most one deletes it |
| IdempotencyProtocol.AllStandOfRun | chaos_service/store.py:367-386 | under the hypotheses a finalized order stays on the key, unchanged, for the whole idempotency TTL |
| IdempotencyProtocol.ReplaysReturnTheOrder | chaos_service/store.py:233-253 | whatever is loaded within that TTL replays as 200 with that order's id, or is a mismatch for another payload |
| IdempotencyProtocol.FailuresAreReplayed | chaos_service/store.py:246-250 | under the hypotheses, whatever is loaded within the TTL of a saved failure replays exactly its status and error, or is a mismatch for another payload |
| IdempotencyProtocol.NothingFollowsWithinTheTtl | chaos_service/store.py:367-408 | while the record of a success or failure stands, nobody reserves the key and no other outcome is written |
| IdempotencyProtocol.AlternatesOfRun | app/service/order_service.py:58-233 | reservations and finalizations alternate in the history of a key |
| IdempotencyProtocol.CreatedApart | app/service/order_service.py:58-233 | two calls on one key that both answered 201 are separated: the later one reserved after the earlier record's TTL had run out |
| IdempotencyProtocol.KeyNeverWedges | chaos_service/store.py:283-334 | after any run, crashes and lost writes included, a request that reserves alone more than a pending TTL later owns the key, replays or conflicts, except that it stays pending iff a live record expires between its SET NX and its GET |
| IdempotencyLimits.StoreErrorAllowsTwoOrders | app/service/order_service.py:101-118 | a request whose reserve raised StorageException finalizes too: two orders for one key at one instant |
| IdempotencyLimits.FlooredSecondAllowsTwoOwners | chaos_service/store.py:152-173 | for every start that is not a whole second there is a run with two owners before a full pending TTL has passed |
| IdempotencyLimits.StaleWithinASecond | chaos_service/store.py:152-158 | a record is stale at the latest after the pending TTL, and at the earliest less than a second before |
| IdempotencyLimits.LostFinalizeAllowsTwoOrders | chaos_service/store.py:367-386 | a finalize that does not reach the store lets the key yield a second order after a takeover |
| IdempotencyStore.Store.ReserveNewProcessing | chaos_service/store.py:283-297 | builds a record with a fresh token and sets it only if the key is free, with the pending TTL |
| IdempotencyStore.Store.Reserve | chaos_service/store.py:300-334 | answers as the protocol's reserve does when other requests act between any two of its commands, leaves on the key after each step what the protocol leaves, touches no other key, and raises at any step an error strikes |
| IdempotencyStore.Store.TakeOver | chaos_service/store.py:317-334 | deletes exactly the stale record it judged, reserves again, and otherwise reads once more, each step leaving the key as the protocol does |
| IdempotencyStore.ReserveTrailIsDriven | chaos_service/store.py:300-334 | the content of the key after every step of reserve is the one the protocol's steps leave |
| IdempotencyStore.ReserveIsDriven | chaos_service/store.py:300-334 | the answer of reserve is the phase that the protocol's steps reach in the same world, and until then they are inside the store |
| IdempotencyStore.Store.WaitForResult | chaos_service/store.py:337-364 | polls while the record is live and the deadline has not passed, then answers what the last look shows, unless an error strikes; terminates because every sleep between two polls advances the clock |
| IdempotencyStore.WaitIsDriven | chaos_service/store.py:337-364 | any number of polls is a path through the protocol's polling phases, inside the store until it answers |
| IdempotencyStore.PollsWhileProcessing | chaos_service/store.py:341-355 | polling goes on iff the timeout lasts and a reservation of the same payload is seen that is not stale |
| IdempotencyStore.WaitLasts | chaos_service/store.py:337-364 | a wait that ends undecided lasted its whole timeout; one that found the reservation gone did not, and the key held nothing or a stale reservation |
| IdempotencyStore.PollsAreBounded | chaos_service/store.py:337-364 | all polls but the last fit, an interval each, into the timeout |
| IdempotencyStore.Store.FinalizeSuccess | chaos_service/store.py:367-386 | overwrites the key with the success record for the full TTL, whoever owns it |
| IdempotencyStore.Store.SaveFailed | chaos_service/store.py:389-408 | overwrites the key with the failure record, whoever owns it |
| IdempotencyStore.Store.Release | chaos_service/store.py:411-418 | deletes the key exactly when it still holds the caller's own record |
| Fingerprint.StringRoundTrip | chaos_service/store.py:105-112 | a reader of JSON strings (section 7 of RFC 8259) recovers every escaped string and what follows it |
| Fingerprint.PayloadRoundTrip | chaos_service/store.py:105-112 | the order can be read back from the text that is fingerprinted |
| Fingerprint.Injective | chaos_service/store.py:105-112 | two orders have the same fingerprint text if and only if item and quantity are equal |
| OrderService.ReplayedOnlyForSamePayload | chaos_service/store.py:307-332 | against a record with a fingerprint, a request is a mismatch if and only if its payload differs, and replay is answered only for the identical payload |
| OrderService.ClaimIsDecided | app/service/order_service.py:58-102 | the other requests and the error leave the idempotency block exactly one result |
| OrderService.OrderService.Claim | app/service/order_service.py:58-102 | reserve and wait as create_order runs them end at the first phase outside the store, or fail open at exactly the step at which an error strikes |
| OrderService.ReservationStays | app/service/order_service.py:126-222 | an owner's own reservation stays on the key iff a breaker error escaped or its write was lost, and nobody else had removed it |
| OrderService.OrderService.CreateOrder | app/service/order_service.py:31-233 | what decides each exit and its reply; one breaker outcome, a success iff the order succeeds, for exactly the calls past the deadline check whose breaker commands reach their last write; the key as the protocol's exits or a crash leave it, and no other record touched; and the circuit as the admission, the other requests and the commands of the report leave it |
| OrderService.OrderService.Serve | app/service/order_service.py:55-233 | everything from the claim on: the exit and its reply, the key and the circuit that are left, and the outcome recorded |
| OrderService.OrderService.Finish | app/service/order_service.py:104-233 | times out iff resilience is on and the deadline is exceeded; otherwise runs the order or lets a breaker error escape |
| OrderReplays.RepliesOfAnOrder | app/service/order_service.py:122-233 | the status and body of each outcome of an order |
| OrderReplays.OrderTwice | app/service/order_service.py:58-233 | after an order that wrote its outcome, a second one alone on the key within the TTL answers 200 with the same order id, or the same status and error, for the same order, and 409 for any other, unless the breaker turns it away |
| OrderReplays.AskAgain | app/service/order_service.py:69-84 | an order that finds a terminal record, or any record of another payload, is answered from the record |
| OrderReplays.AskWhilePending | app/service/order_service.py:85-107 | an order that finds a live reservation of the same payload and waits in vain answers 202 processing, even if the reservation runs out meanwhile |
| OrderServiceLimits.LostReportStrandsTheReservation | app/service/order_service.py:185-211 | any keyed order whose record_success raises: no outcome, reply 503, and the reservation still on the key |
| CircuitBreaker.Breaker.AllowRequest | chaos_service/resilience/breaker/breaker.py:38-60 | raises iff it gets as far as a command that raises, and otherwise admits as the circuit's state and the probe contest say; a caller that is turned away keeps its flag as it was |
| CircuitBreaker.AdmissionByKeys | chaos_service/resilience/breaker/breaker.py:38-60 | told from the two keys: a request passes without the probe iff open_until is absent or at most 0 and nobody probes, passes as the probe iff an opening is over and nobody probes, and is turned away otherwise |
| CircuitBreaker.ExactlyOneProbes | chaos_service/resilience/breaker/storage.py:95-103 | of all requests that ask after an opening, at one instant or within the lease of the first, exactly the first is let through, and it holds the probe |
| CircuitBreaker.Breaker.RecordSuccess | chaos_service/resilience/breaker/breaker.py:62-88 | a probe's success closes the circuit, any other success is one outcome; the outcome recorded, the flag and the circuit left, whichever command raises |
| CircuitBreaker.Breaker.RecordFailure | chaos_service/resilience/breaker/breaker.py:90-117 | a probe's failure reopens the circuit, any other failure is one outcome; the outcome recorded, the flag and the circuit left, whichever command raises |
| CircuitBreaker.ProbeReportsDecide | chaos_service/resilience/breaker/storage.py:111-121 | a probe's success leaves the circuit closed with empty windows, its failure leaves it open for a whole timeout with the probe free, even if the snapshot after it raises |
| CircuitBreaker.TidyProbe | chaos_service/resilience/breaker/storage.py:84-103 | expired keys dropped by reads do not change who wins the probe |
| BreakerProtocol.AllowIsDriven | chaos_service/resilience/breaker/breaker.py:38-60 | the protocol's four steps at one instant come to the decision of allow_request |
| BreakerProtocol.SuccessIsDriven | chaos_service/resilience/breaker/storage.py:111-114 | a probe's success is two protocol steps, and an error between them leaves the half-done close |
| BreakerProtocol.FailureIsDriven | chaos_service/resilience/breaker/breaker.py:93-105 | a probe's failure is four protocol steps, and an error at any of them leaves what the steps before it left |
| BreakerProtocol.OneProbe | chaos_service/resilience/breaker/storage.py:95-121 | in every run in which probes report within their TTL or are abandoned, at most one request holds the probe |
| BreakerProtocol.LeasedOfRun | chaos_service/resilience/breaker/storage.py:95-121 | open_until and the probe's expiry never lie further ahead of the last write than their timeouts, half-done closes included |
| BreakerProtocol.NeverWedges | chaos_service/resilience/breaker/storage.py:84-121 | after any run, a request later than both timeouts after the last write to open_until or to the probe key is admitted, however many ordinary outcomes came since |
| BreakerProtocol.NeverWedgesStepwise | chaos_service/resilience/breaker/breaker.py:38-60 | the same for the four separate steps of allow_request, with any time between them |
| BreakerProtocol.NobodyPassesUntilAClose | chaos_service/resilience/breaker/storage.py:84-121 | in every run, from a trip or a reopen until the next close is finished, no request that reads open_until is let through except as the probe |
| BreakerProtocol.TurnedAwayForTheTimeout | chaos_service/resilience/breaker/storage.py:84-121 | in every run, for the whole open timeout after a trip no such request is even a probe, unless a probe that was still out closes or reopens the circuit |
| BreakerProtocol.OutcomesCountHistory | chaos_service/resilience/breaker/storage.py:144-180 | in every interleaving a recorded outcome sees exactly the outcomes of the trailing window since the last close, and trips by them |
| BreakerStorage.RecordKeepsTrack | tests/conftest.py:217-250 | pruning and the two separately refreshed TTLs keep both windows in agreement with the history |
| BreakerStorage.RecordCountsHistory | chaos_service/resilience/breaker/storage.py:144-180 | the script's counts are the history's counts, and failures never exceed totals |
| BreakerStorage.RecordTripsByHistory | tests/conftest.py:217-250 | the circuit opens iff totals reach the minimum, failures divided by totals reach the threshold and it is not open already; then for one open timeout |
| BreakerStorage.SnapshotCountsHistory | chaos_service/resilience/breaker/storage.py:129-142 | snapshot, which prunes without regard to expiry, counts the same outcomes |
| BreakerStorage.CloseClearsHistory | chaos_service/resilience/breaker/storage.py:111-114 | after the first of close's two writes the history is empty |
| BreakerStorage.StateByKeys | chaos_service/resilience/breaker/storage.py:84-93 | open until the stored instant, half open after it, and without one half open while somebody probes and closed otherwise |
| BreakerStorage.RaisesByKeys | chaos_service/resilience/breaker/storage.py:84-103 | how far a request gets, told from the two keys: the probe is read only when no instant is stored, and set only when half open |
| BreakerStorage.WindowsExpire | chaos_service/resilience/breaker/storage.py:144-180 | the windows expire two seconds after their last outcome left the trailing window |
| BreakerStorage.RedisCircuitBreakerStorage.ReadState | chaos_service/resilience/breaker/storage.py:84-93 | the state is read off two keys; reading drops nothing but expired keys |
| BreakerStorage.RedisCircuitBreakerStorage.TryAcquireProbe | chaos_service/resilience/breaker/storage.py:95-103 | wins the lock iff nobody holds it, with the probe TTL |
| BreakerStorage.RedisCircuitBreakerStorage.Record | chaos_service/resilience/breaker/storage.py:144-180 | the whole new state of the four keys after an outcome |
| Redis.GetAnswersTheLive | tests/conftest.py:57-76 | a key answers up to and including its last instant |
| Redis.SetNxWinsTheFree | tests/conftest.py:84-98 | SET NX EX wins iff the key is free, and then holds the value for its time |
| Redis.DeletesTheExpected | tests/conftest.py:271-280 | compare and delete deletes iff the live value is the expected one |
| SlidingWindow.RefreshIsExact | tests/conftest.py:172-186 | pruning an expiring set leaves exactly the samples of the trailing window |
| SlidingWindow.ExtendIsExact | tests/conftest.py:217-250 | adding a sample and refreshing the TTL keeps the set in agreement with the longer history |
| RateLimiter.SlidingDecidesByHistory | chaos_service/rate_limiter.py:110-130 | the pruned, expiring set decides exactly as the full admission log would |
| RateLimiter.NoWindowOverfull | lua/sliding_window.lua:1-17 | in any run of the script no interval of window length, open at one end, holds more than limit admitted calls |
| RateLimiter.RunTracksAdmissions | chaos_service/rate_limiter.py:110-130 | over any sequence of calls the pruned, expiring key stands for the full log of admissions |
| RateLimiter.ClosedWindowFits | lua/sliding_window.lua:1-17 | with both ends included the bound holds in runs without two calls exactly one window apart |
| RateLimiter.ClosedWindowsFitOnlyLimitZero | lua/sliding_window.lua:1-17 | the rules whose every run keeps closed intervals within the limit are exactly those with limit 0 |
| RateLimiter.ClosedIntervalHoldsMore | tests/conftest.py:172-186 | for every limit but 0, limit calls at one instant and one a window later make limit + 1 admissions in the closed interval |
| RateLimiter.CountersAreExact | tests/conftest.py:262-270 | a bucket's counter is the number of calls in the bucket and cannot expire while the bucket is current |
| RateLimiter.FixedDecidesByCount | chaos_service/rate_limiter.py:95-108 | the fixed limiter admits call k iff fewer than limit calls preceded it in its bucket |
| RateLimiter.BucketAdmitsUpToLimit | chaos_service/rate_limiter.py:95-108 | every bucket admits exactly min(calls, limit) |
| RateLimiter.IntervalAdmitsTwiceTheLimit | chaos_service/rate_limiter.py:95-108 | every interval of window length, both ends included, admits at most twice the limit |
| RateLimiter.TwiceTheLimitIsReached | chaos_service/rate_limiter.py:95-108 | for every limit a burst across a bucket boundary has all of its 2 * limit calls admitted within less than a window |
| RateLimiter.RedisBackend.Allow | chaos_service/rate_limiter.py:90-130 | dispatches on the algorithm and changes only the counter or set of the subject's key |
| RateLimiter.AllowBoth | chaos_service/rate_limiter.py:90-130 | two clients without separators in their names are decided as if each were alone |
| RateLimiter.EachClientHasItsLimit | chaos_service/rate_limiter.py:90-130 | with limit 1 the first calls of two new clients are both admitted |
| RateLimitKeys.SharedBaseKey | chaos_service/rate_limiter.py:132-148 | two callers share a key iff their service, resource, dimension and subject agree after normalisation |
| RateLimitKeys.SegmentCharacters | chaos_service/rate_limiter.py:143-148 | a segment is the text without outer whitespace, character by character, with an underscore exactly at spaces, slashes and colons; blank text gives "unknown" |
| RateLimitKeys.PlainSubjectsAreApart | chaos_service/rate_limiter.py:132-148 | subjects without these characters share a key iff they are equal |
| RateLimitKeys.BucketKeysAreApart | chaos_service/rate_limiter.py:95-103 | bucket keys are equal iff base key and bucket are, and are never sliding keys |
| Retry.Execute | chaos_service/retry.py:77-124 | returns the first success or raises the last error, after 1 to max_attempts calls, recording exactly one success or failure, and never reaching its final RuntimeError; a transient error is raised again exactly when attempts are used up or the next would not start before the deadline |
| Retry.RetryIffBeforeDeadline | chaos_service/retry.py:47-56 | an attempt is followed by another iff it failed transiently, attempts are left and the next one starts before the deadline |
| Retry.CapDoubles | chaos_service/retry.py:126-128 | the cap is the base delay, then doubles, and never exceeds the maximal delay |
| Retry.SleepsWithinCaps | chaos_service/retry.py:126-128 | the sleeps together are at most the sum of the exponential caps |
| Retry.CapSumBounded | chaos_service/retry.py:126-128 | and that sum is at most the number of retries times the maximal delay |
| AgentPlan.SameExactlyOnAcceptedPlans | agent-eval/scripts/run_agent_eval.py:351-410 | for every client and plan, both pipelines make the same calls and report the same trace if and only if every step is accepted by its schema |
| AgentPlan.StepsAgree | ai_platform/tools/legacy_tool.py:43-135 | an accepted step has the same effect in both, attempts included |
| AgentPlan.CallsStopAtFirstSuccess | ai_platform/tools/legacy_tool.py:65-87 | an order is sent with retry indices 0, 1, ... and the calls stop exactly at the first answer that is ok or when the retries are used up |
| AgentPlan.AcceptedMeans | ai_platform/tools/legacy_tool.py:146-185 | which steps pass the executor, field by field, for each of the four tools |
| AgentPlan.OrderIsSentAsGiven | ai_platform/tools/legacy_tool.py:65-87 | an accepted order reaches the client with the item, quantity and address of the plan |
| AgentPlan.OtherStepsAreSentAsGiven | ai_platform/tools/legacy_tool.py:104-135 | an accepted query or cancellation is one call with the order id of the plan, and a question is none |
| AgentPlan.AttemptsAreNumbered | ai_platform/tools/legacy_tool.py:74-87 | the attempts of an order bear the name of the tool and then the names of retries 1, 2, ... |
| AgentPlan.RetryCountCountsCalls | ai_platform/workflow/nodes/tool_node.py:39-71 | the reported retry count is the number of client calls that were retries |
| AgentPlan.TextTellsTheEnding | ai_platform/tools/legacy_tool.py:89-135 | the text of an accepted step names a failure iff the step ended in one |
| AgentPlan.LastArgsWin | ai_platform/workflow/nodes/tool_node.py:39-71 | the reported arguments are, name by name, those of the last step that has the name |
| AgentPlan.MissingQuantityIsNotPreserved | ai_platform/tools/executor.py:170-189 | without a quantity the old loop orders one piece and the new pipeline makes no call |
| AgentPipelines.ExecutePlan | agent-eval/scripts/run_agent_eval.py:351-410 | the step loop of execute_plan computes the specified trace |
| AgentPipelines.ExecuteStep | agent-eval/scripts/run_agent_eval.py:375-410 | one step with its retry loop |
| AgentPipelines.ExecutePlaceOrder | ai_platform/tools/legacy_tool.py:65-103 | the adapter's retry loop computes the specified execution |
| AgentPipelines.ValidateParams | ai_platform/tools/executor.py:170-189 | accepts params iff every schema field is present when required and well typed when present |
| AgentPipelines.ExecuteTool | ai_platform/tools/executor.py:61-167 | runs the adapter iff the tool is registered and its params are accepted; otherwise no client call is made |
| AgentPipelines.RunToolNode | ai_platform/workflow/nodes/tool_node.py:39-71 | the node's loop computes the specified trace |
| Fabrication.BaseUndoesRetryName | ai_platform/evaluation/fabrication.py:94-97 | base_tool_name undoes the retry naming for every k, for exactly the names that are not empty and hold no line feed |
| Fabrication.SplitIsUnique | ai_platform/evaluation/fabrication.py:51 | a name holds at most one retry suffix, so lazy matching loses nothing |
| Fabrication.OtherNamesStay | ai_platform/evaluation/fabrication.py:94-97 | a name not ending in a digit or line feed is its own base name |
| Fabrication.SuccessfulTools | ai_platform/evaluation/fabrication.py:119-128 | the loop returns the base names of the entries that succeeded |
| Fabrication.SuccessfulMeans | ai_platform/evaluation/fabrication.py:105-128 | a tool is reported iff an entry of it says ok, or says nothing about ok and has a status from 200 to 299 |
| Fabrication.SuccessfulToolsAreTheOnesThatEndedOk | ai_platform/evaluation/fabrication.py:119-128 | on every executed plan, in both pipelines, those are exactly the tools of the steps that ended ok |
| Fabrication.ObservedTools | ai_platform/evaluation/fabrication.py:131-137 | the union of the base names of the called tools and of the entries, without the empty name |
| Fabrication.ObservedToolsAreTheSteps | ai_platform/evaluation/fabrication.py:131-137 | for an executed plan the observed tools are the base names of its steps' tools: for every plan in the refactored pipeline, and for every accepted plan in the old loop |
| Fabrication.EndingsFollowSteps | ai_platform/workflow/nodes/tool_node.py:50-69 | a run has one ending per step, in the order of the plan and with its tools |
| JudgeBias.Summarize | agent-eval/scripts/judge_bias.py:100-144 | every count of the summary is the one it is named after, over all records, and every rate their quotient, or absent when there is nothing to divide by |
| JudgeBias.SidesAreTheNamedAnswers | agent-eval/scripts/judge_bias.py:89-97 | in either order the recorded side is the side of the answer that the judge named |
| JudgeBias.WinsAreFirstVerdicts | agent-eval/scripts/judge_bias.py:115-123 | first-position wins are the verdicts for the answer shown first, in the pairs with two valid verdicts |
| JudgeBias.AlwaysFirstIsAllBias | agent-eval/scripts/judge_bias.py:115-123 | a judge that always names the answer shown first wins every judgment for it and flips every pair |
| JudgeBias.ExcessBoundedByFlips | agent-eval/scripts/judge_bias.py:115-123 | twice the first-position wins differ from the decided judgments by at most twice the flips, with equality upwards iff every flipped pair chose the first answer twice |
| JudgeBias.WinRateNearHalf | agent-eval/scripts/judge_bias.py:138-140 | the first-position win rate lies within flips per decided judgment of one half |
| JudgeBias.AccuraciesDifferByFlips | agent-eval/scripts/judge_bias.py:125-130 | the reference hits of the two orders differ by at most the flips |
| JudgeBias.BlindJudgesNeverFlip | agent-eval/scripts/judge_bias.py:177-190 | exactly the judges whose valid verdicts name the same answer in both orders have no flips on every dataset, and then the first position wins exactly half |
| JudgeBias.StubJudgeShowsNoBias | agent-eval/scripts/judge_bias.py:150-158 | stub_judge makes every pair usable, flips none and gives the first position half of the decided judgments |
| JudgeBias.StubJudgeAccuracies | agent-eval/scripts/judge_bias.py:125-130 | both reference accuracies of stub_judge are the share of references that are the longer answer |
| HistogramQuantile.HistogramPercentile | demo/scenarios/incident_analysis/data_sources.py:67-95 | the two loops compute the interpolated quantile of the filled dictionary, or nothing without observations |
| HistogramQuantile.FirstLabelDecides | demo/scenarios/incident_analysis/data_sources.py:70-80 | the bound of a sample is read off its first label that begins with le=, and +Inf is none |
| HistogramQuantile.LastSampleCounts | demo/scenarios/incident_analysis/data_sources.py:70-80 | a bucket holds the value of the last sample with its bound |
| HistogramQuantile.QuantileIsMonotone | demo/scenarios/incident_analysis/data_sources.py:82-95 | on cumulative counts the quantile is nondecreasing in pct, for every pct |
| HistogramQuantile.QuantileStaysBelow | demo/scenarios/incident_analysis/data_sources.py:86-95 | it never exceeds the finite bounds, for every pct |
| HistogramQuantile.QuantileIsNonnegative | demo/scenarios/incident_analysis/data_sources.py:86-93 | it is at least 0 if and only if pct is, or the first bucket is empty or has bound 0 |
| HistogramQuantile.ExactHit | demo/scenarios/incident_analysis/data_sources.py:87-93 | a target equal to a strictly larger bucket count yields that bucket's bound |
| HistogramQuantile.QuantileInvertsCount | demo/scenarios/incident_analysis/data_sources.py:85-95 | reading the piecewise-linear count at the quantile gives the target back |
| Scorer.ScoreCases | ai_platform/evaluation/evaluator.py:110-283 | the loop's lists and counters are those of the selected cases, and each matrix row is computed from its own dimension |
| Scorer.Evaluate | ai_platform/evaluation/evaluator.py:79-363 | every reported rate and average is the mean it is named after |
| Scorer.TraitsOfACase | ai_platform/evaluation/evaluator.py:110-283 | which recorded cases count as exact, passed, retried, flagged, respected, unplanned and of each dimension, in terms of their fields |
| Scorer.RatesAreShares | ai_platform/evaluation/evaluator.py:250-363 | the reported tool accuracy, success rate and hallucination rate are shares of the recorded cases |
| Scorer.DimensionsPartition | ai_platform/evaluation/evaluator.py:227-247 | for each measure the four dimensions add up to the whole |
| Scorer.MatrixReproducesTheRates | ai_platform/evaluation/evaluator.py:338-363 | case counts of the rows sum to the total and their case-weighted rates reproduce every overall rate |
| Scorer.RowIsTheReportOfItsOwnCases | ai_platform/evaluation/evaluator.py:338-363 | a row reports what a run on its own cases alone would report |
| Scorer.TokenListsSplitTheCases | ai_platform/evaluation/evaluator.py:126-136 | pass and fail, and retry and no-retry token lists, each account for every case once |
| Scorer.RetryTaxExplainsTheTokens | ai_platform/evaluation/evaluator.py:289-294 | all tokens are the unretried average on every case plus the difference of the averages on each retried one |
| Scorer.ArgMatchIsAShare | ai_platform/evaluation/metrics/__init__.py:24-35 | the argument score lies in 0..1 and is 1 iff the arguments are waived or all expected ones were passed |

## Left out

- Redis, threads and wall time are replaced by atomic steps with one clock that never goes back; the breaker's keys and the records are two objects, neither of which `CreateOrder` lets run ahead of its first step. A client clock that lags the server's is not modelled.
- A Redis error is raised before the command takes effect; a command that takes effect and whose reply is lost is modelled for finalize, save_failed and release only as the write being lost.
- Records are values; their JSON text, and the legacy shapes that `_normalize_record` reads (a bare order id, a PROCESSING record without a token), are not part of this model, and neither are records written by other programs.
- Owner tokens are fresh numbers where the program draws random ones; sorted-set members are serial numbers where it draws UUIDs.
- Fingerprint.Injective: takes item ids of Unicode scalar values; lone surrogates, which Python strings can hold, are not modelled.
- OrderService.OrderService.CreateOrder: other requests change the breaker's keys before the report but not between two commands of one breaker method; that interleaving is the subject of BreakerProtocol. Counters, logs, `code` and experiment fields of replies and the order document are not modelled.
- BreakerProtocol.OneProbe: does not claim that a probe later than its TTL is harmless, because a second request may then probe.
- Retry.Execute: the jitter is any value up to the cap, the sleeper sleeps exactly as long as asked, and logging is not modelled.
- AgentPlan.SameExactlyOnAcceptedPlans: takes plans without a role, so the permission branch of both pipelines is left out, as are token estimates, exceptions of the client and metadata other than the retry count and the response text.
- Fabrication.BaseUndoesRetryName: `\d` is read as the ASCII digits, which are the ones the pipelines print.
- The claim and identifier patterns of the fabrication detector: regular expressions over Chinese text are not modelled.
- Verdict parsing, prompts and repeated runs of the judge are not modelled.
- HistogramQuantile.HistogramPercentile: floats are real numbers, so rounding, infinities and NaN are not modelled; float() of a label is an arbitrary function.
- Scorer.Evaluate: the review pool, the sampled judge with its coverage and pass rate, the maximum, estimated and percentile token figures, LLM tokens, offline fallbacks and the breakdown of findings by kind are left out; sums are exact where the program adds floats; argument values are compared as strings.
- The rate limiter's fail-open wrapper, proxy headers and subject resolution: each is settled by reading one branch.
- Chaos experiments, quality gates, reports, dashboards, LLM providers, HTTP routing and the security policies are not part of this model.
