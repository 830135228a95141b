# A model of the matchmaking service

This project models the parts of a solitaire tournament backend in which an
error would be hard to see: the database protocols that workers run beside each
other, the matching rules with their retry schedule, the rating mathematics with
its evaluation, and the simulator that runs the matcher on synthetic arrivals.
`dafny verify dfyconfig.toml` checks every statement below.

Each database transaction, or each statement that stands alone, is one atomic
step on a state of maps. Everything else interleaves freely: workers keep claims
and reads that have become stale, leases run out, replies get lost, commands are
repeated, clocks of client and database differ. The stores and queues are classes
whose methods are proved against functions on these states; the theorems are
about every sequence of steps from the empty state.

## The protocols

* **Outbox** (`Outbox`, `OutboxReceiver`, `OutboxRunner`, `OutboxRuns`,
  `OutboxCycles`). Claims with leases and per-aggregate heads, a runner that
  publishes and then acknowledges, retries or dead-letters, and a consumer that
  deduplicates. The consumer applies each event once, in version order within its
  aggregate, and the worker's cycles are runs of this protocol. `Batches` is the
  ordered, bounded selection that all claim statements share. `OutboxLaws` says what
  each call brings about: who may complete an event, and what then can be claimed when.
* **Tickets, rooms, sessions, results** (`Database`, `TicketStore`, `ResultStore`,
  `MatchmakingQueue`, `Lifecycle`, `LifecycleInvariant`, `LifecycleRuns`,
  `LifecycleLaws`, `TicketLeases`). Every reachable state is exact, every command
  replays without effect for ever, and a ticket has one worker at a time.
  `TransactionLaws` has, for each transaction, the exact condition under which it
  succeeds and every row it then writes.
* **Delivery** (`Delivery`). Lifecycle, outbox and consumer in one run: for every
  ticket and room, what the consumer applied is a prefix of what was emitted.
* **Fair assignment** (`FairAssignment`). A worker reads room versions and room
  members in two statements and assigns against a version. The theorem is about
  every interleaving of both reads with all other steps.
* **Rating queue** (`RatingQueue`, `RatingRuns`) and **shadow timeline**
  (`ShadowTimeline`, `ShadowRuns`, `ShadowBlocking`, `ShadowProgress`,
  `ShadowWitness`, `ShadowOrder`). Two queues with a single head. The first
  rates each result once, in order, into a chain of ratings. The second predicts
  a room before its result moves any state, and never from the future. `QueueLaws`
  says who may claim, process and return the heads and what that writes.

## Matching

`MatchTypes`, `Eligibility`, `Priority`, `Selector`, `Orchestration` and
`WakeUps` hold the stepped skill window, the hard fairness rules, the selection
and the wake-up schedule. For a predictor whose answer does not depend on the
generation time the schedule finds a match exactly as early as evaluating at
every instant would. `EligibilityLaws` and `SelectionLaws` state, without the code's
own order of checks, who is eligible, which room is selected, and how an attempt ends.

## Ratings

* `BitMask`, `PlackettLuce`, `PlacementDp`, `PlacementLaws`, `Prediction`,
  `PredictionLaws`: the subset dynamic program equals the sum over all orderings,
  with its row, column and dominance laws. `WeightLaws` says what the weights mean.
* `Analysis`, `Baseline`, `Canonical`, `SortedIds`, `BaselineUpdate`: the pairwise
  update, over reals, with `exp` and `sqrt` known only by the laws it uses.
  `BaselineLaws` gives its meaning: odds, scale, information and posterior.
* `Totals`, `Statistics`, `FeatureData`, `FeatureLaws`, `Profiles`: the time split,
  the one-pass statistics and the running profiles.
* `Calibration`, `CalibrationLaws`, `ScoringScope`, `ScoreLaws`, `Comparison`,
  `ComparisonLaws`, `ComparisonVerdict`, `Activation`, `ActivationLaws`,
  `ZeroTimeReport`: scoring of predictions, the comparison of two models with its
  verdict, and the independent check at activation.

## Simulator

`Words` and `Generator` hold the random source over 64-bit words, `Simulator`,
`RoomFormation` and `SimulatorRun` the event loop, `SimulatorReport` and
`SimulatorLaws` the report, `OutcomeGenerator` the synthetic results, and
`RunSimulation` the whole run.

## Where the code does not do what one might expect

* The shadow timeline can stop for good. A room or a result that meets a state
  dated after it fails on every attempt, for ever, and holds back everything behind
  it (`ShadowBlocking.BlockedForever`, `BlockedStopsTheRest`). `ShadowWitness` has
  runs in which that happens to a late room and to a late result, at once or only
  later. `ShadowProgress.CanBlockIff`, `CanFailIff`, `CanCloseIff` and `CanDrainIff`
  are the exact conditions; `ShadowOrder.InOrderNeverBlocks` is a discipline that
  avoids it.
* A dead letter holds back its aggregate until it is re-driven
  (`Outbox.AggregateProgress`).
* The selector's comparator is no order on rooms of different policies
  (`Selector.MixedPoliciesCycle`); the scope check is what makes it one.
* The comparison records the latest availability from the zero time on, so an
  eligible report over results that all lie before it is refused at activation
  (`ZeroTimeReport.EligibleButRefused` is such a report,
  `ComparisonLaws.EligibleActivates` states when exactly a report passes).
* A time that is exactly zero counts as unset. The wake-up theorems pass over that
  instant, and the simulator's ask that no arrival, room deadline or result time
  falls on it (`Simulator.AvoidsZero`).

## Model

| member | source | states |
|---|---|---|
| `Outbox.OutboxQueue.ClaimOutboxEvents` | internal/postgres/outbox_queue.go:29-87 | the claimed rows are the earliest unlocked claimable ones up to the limit, each head of its aggregate; exactly they get the lease and one more attempt |
| `Outbox.OutboxQueue.MarkOutboxDelivered` | internal/postgres/outbox_queue.go:89-111 | the new table is the delivered one under a live lease of the token, otherwise unchanged with a lost claim |
| `Outbox.OutboxQueue.MarkOutboxDeadLettered` | internal/postgres/outbox_queue.go:113-139 | the same for dead-lettering with its bounded reason |
| `Outbox.OutboxQueue.ScheduleOutboxRetry` | internal/postgres/outbox_queue.go:165-191 | the same for a retry, which gives the lease back and moves availability |
| `Outbox.OutboxQueue.RedriveOutboxDeadLetter` | internal/postgres/outbox_queue.go:141-163 | only a dead letter is made available again, with its error cleared |
| `Outbox.BatchIsUnique` | internal/postgres/outbox_queue.go:34-59 | the rows a claim takes are determined: two batches with the same request are equal |
| `Outbox.AggregateProgress` | internal/postgres/outbox_queue.go:40-58 | an aggregate with an undelivered event has exactly one first undelivered event; it can be claimed at some time exactly if that event is not a dead letter, and then it is that event |
| `OutboxReceiver.Receiver.ServeHTTP` | examples/game-backend/main.go:69-121 | reply, log and stored events for every request: the refusals of method, token and body, then apply once, acknowledge a repeat, refuse a changed event |
| `OutboxRuns.AppliedOnceInOrder` | examples/game-backend/main.go:105-120 | in every run with expiring leases, stale workers, lost replies, dead letters and re-drives each event is applied at most once, with its stored content, in version order within its aggregate |
| `OutboxRuns.DeliveredPrefix` | internal/postgres/outbox_queue.go:40-58 | delivered events of an aggregate are a prefix of its events, and all of them have been applied |
| `OutboxRuns.NeverRejected` | examples/game-backend/main.go:88-120 | no event the outbox sends is ever refused as malformed or conflicting |
| `OutboxRuns.OneLeasePerAggregate` | internal/postgres/outbox_queue.go:34-59 | at most one event of an aggregate is leased at a time |
| `OutboxRuns.StaleClaimNeverWrites` | internal/postgres/outbox_queue.go:89-191 | after a newer claim no completion under an older token ever changes the table, however the run goes on |
| `OutboxLaws.AcknowledgementDelivers` | internal/postgres/outbox_queue.go:89-111 | an acknowledgement succeeds exactly for the holder of a live lease, at a time not before the event; then the event is delivered at that time, without lease, at no time claimable, and nothing else changes |
| `OutboxLaws.BurialBuries` | internal/postgres/outbox_queue.go:113-139 | a burial succeeds exactly for the holder of a live lease, stores time and reason, and makes the event claimable at no time |
| `OutboxLaws.RetryPostpones` | internal/postgres/outbox_queue.go:165-191 | a retry gives the lease back and keeps the error; the event is claimable from the new time on, if nothing comes before it, and not earlier |
| `OutboxLaws.RedriveRevives` | internal/postgres/outbox_queue.go:141-163 | a re-drive succeeds exactly for a dead letter, which is then claimable from the given time on |
| `OutboxLaws.ClaimLeases` | internal/postgres/outbox_queue.go:34-72 | a claim puts exactly the rows of its batch under the lease of its token, with one more attempt; they are claimable by others exactly when the lease is over |
| `OutboxLaws.LongestDueFirst` | internal/postgres/outbox_queue.go:54-58 | a batch never prefers an event to one that has been due for longer |
| `OutboxLaws.DeliveryPassesOn` | internal/postgres/outbox_queue.go:40-58 | when the first pending event of an aggregate is delivered its next one becomes the first, and exactly that one can be claimed then, unless it is a dead letter |
| `OutboxLaws.DeliveredForever` | internal/postgres/outbox_queue.go:45-47 | what was delivered stays delivered, at that time, and is claimable at no time in any continuation |
| `OutboxLaws.BuriedUntilRedriven` | internal/postgres/outbox_queue.go:45-58 | a dead letter stays one in every continuation without a re-drive of it |
| `OutboxLaws.LeaseExcludes` | internal/postgres/outbox_queue.go:45-53 | while a lease runs no other claim is handed the event, in any continuation, unless it was retried or re-driven in between |
| `OutboxLaws.CycleSettles` | internal/worker/outbox.go:201-252 | after a cycle a claim whose lease was alive when settled is delivered if it was published, dead-lettered if it was refused for good, and otherwise available after its delay |
| `OutboxReceiver.AcknowledgedIsStored` | examples/game-backend/main.go:88-120 | a request is malformed exactly if its event is invalid or stands under another key; success means that exactly this event is stored; it is applied exactly if it is new and its side effect succeeds, and a changed event is refused |
| `OutboxCycles.NeverBuried` | internal/worker/outbox.go:201-235 | in every run the consumer's replies never make the worker dead-letter an event; it counts as published exactly if request and reply get through and it is applied before or now |
| `OutboxRunner.BackoffDoubles` | internal/worker/outbox.go:255-264 | the first delay is the base and every further one twice the one before, up to the maximum |
| `OutboxRunner.RetryDelay` | internal/worker/outbox.go:255-264 | the doubling loop computes initial times two to the attempt minus one, capped at the maximum |
| `OutboxRunner.HandleClaim` | internal/worker/outbox.go:201-252 | one claim is published and then acknowledged, retried or dead-lettered exactly as the delivery error and the attempt count say |
| `OutboxRunner.SettleAll` | internal/worker/outbox.go:183-200 | the claims can be settled in any order with the same table |
| `OutboxRunner.RunOnce` | internal/worker/outbox.go:166-253 | one cycle settles exactly the claimed batch and counts every claim once |
| `OutboxCycles.HandlingIsRun` | internal/worker/outbox.go:201-235 | publishing and settling one claim are enabled steps of the outbox, whatever gets lost: only a success reply to the own request is acknowledged |
| `OutboxCycles.CycleIsRun` | internal/worker/outbox.go:166-253 | the table that one cycle promises is the one a run of the outbox reaches, so the theorems on runs hold for the worker |
| `PlackettLuce.PlaceMassIsHit` | pkg/rating/prediction.go:139-173 | summing sequential choice probabilities over all complete orderings that put a player on a place equals the recursive draw |
| `PlackettLuce.OrderingsExact` | pkg/rating/prediction.go:139-173 | the enumerated orderings are exactly the permutations of the players |
| `PlacementDp.PlackettLuceDistributions` | pkg/rating/prediction.go:139-173 | the bitmask program returns, for any number of positive weights, exactly the sum over all orderings for every player and place |
| `PlacementDp.Advance` | pkg/rating/prediction.go:148-169 | one pass over the states moves the mass of every selection of size k to size k plus one |
| `PlacementLaws.PlacesSumToOne` | pkg/rating/prediction.go:83-95 | each player's place probabilities sum to one |
| `PlacementLaws.PlayersSumToOne` | pkg/rating/prediction.go:139-173 | each place is taken with total probability one |
| `PlacementLaws.ExpectedPlacesSum` | pkg/rating/prediction.go:83-95 | the expected places of n players sum to n(n+1)/2 |
| `PlacementLaws.HeavierDominates` | pkg/rating/prediction.go:139-173 | a player with at least another's weight is at least as likely to finish in the top m, for every m |
| `PlacementLaws.HeavierExpectsBetter` | pkg/rating/prediction.go:83-95 | and expects a place no worse |
| `PlacementLaws.EqualRoomIsUniform` | pkg/rating/prediction.go:139-173 | equal weights give every player every place with probability 1/n |
| `PlacementLaws.EntryIsProbability` | pkg/rating/prediction.go:139-173 | every entry of the distribution lies between zero and one |
| `Prediction.PlacementWeights` | pkg/rating/prediction.go:99-137 | the loops compute the clipped, standardized softmax weights, and the check on the scale never fails |
| `Prediction.WeightMonotone` | pkg/rating/prediction.go:99-137 | a higher mean never gets a smaller weight, an equal mean the same weight |
| `Prediction.BestWeightIsOne` | pkg/rating/prediction.go:124-136 | the best rated player has weight one and nobody more |
| `Prediction.Predict` | pkg/rating/prediction.go:43-97 | validation, ordering by player id and the table together return the specified prediction or the error |
| `WeightLaws.PredictSucceedsIff` | pkg/rating/prediction.go:43-82 | a prediction succeeds exactly for a named room of five to seven players, each with a rating of this model, within its bounds and no newer than the prediction |
| `WeightLaws.ScaleIsAverage` | pkg/rating/prediction.go:102-112 | the scale of a room is the root of twice the average of its players' variances of skill and performance |
| `WeightLaws.WeightIsDistance` | pkg/rating/prediction.go:117-136 | a weight is the exponential of the distance to the best mean in units of that scale, cut off at the maximum range |
| `WeightLaws.UncertaintyFlattens` | pkg/rating/prediction.go:99-137 | with the same means and more variance in the room nobody's weight gets smaller, while the best one's stays one |
| `PredictionLaws.HigherMeanDominates` | pkg/rating/prediction.go:43-97 | in a prediction a higher mean means stochastic dominance, whatever the uncertainties |
| `PredictionLaws.PredictionIsCoherent` | pkg/rating/prediction.go:43-97 | every row and every column of a prediction sums to one |
| `PredictionLaws.PredictionValidates` | pkg/matchmaking/eligibility.go:201-239 | the baseline's prediction of a readable full room always passes the matcher's coherence check |
| `PredictionLaws.FairnessAlwaysDecides` | pkg/matchmaking/eligibility.go:159-199 | with the baseline the fairness check succeeds exactly for a full valid room inside its lifetime whose members the model reads |
| `PredictionLaws.BaselineIsTimeInvariant` | pkg/rating/prediction.go:43-97 | the baseline's answer does not depend on the generation time |
| `PredictionLaws.BaselineScheduleIsExact` | pkg/matchmaking/orchestration.go:124-151 | with the baseline the wake-up schedule finds a match as early as continuous evaluation would |
| `MatchTypes.AllowedSkillGapMonotone` | pkg/matchmaking/priority.go:13-31 | the stepped window stays between its limits and never narrows with age |
| `MatchTypes.AllowedSkillGapReachesMaximum` | pkg/matchmaking/priority.go:17-19 | from the fill timeout on the window is the hard limit |
| `EligibilityLaws.StepsCoverTimeout` | pkg/matchmaking/priority.go:20-25 | the number of steps is the fill timeout in intervals, rounded up |
| `EligibilityLaws.WindowSteps` | pkg/matchmaking/priority.go:13-31 | the window of a new room is the initial gap; every full interval before the fill timeout adds the same share of the way to the hard limit, and nothing changes inside an interval |
| `EligibilityLaws.FairIff` | pkg/matchmaking/eligibility.go:159-199 | a decided complete room is inside its hard limits exactly if every two members are within the skill limit and every two predicted chances to win within the probability limit, for the prediction asked for these members at this time |
| `EligibilityLaws.EligibleIff` | pkg/matchmaking/eligibility.go:90-157 | a decided candidate is eligible exactly if it is valid and in time, the room is open with a free seat and of its model, nobody clashes, all are pairwise within the hard limit and the window of the room's age, and a completed room is fair |
| `EligibilityLaws.RejectionIsTrue` | pkg/matchmaking/eligibility.go:90-157 | the reason of every rejection is true of room and candidate |
| `EligibilityLaws.EligibleGap` | pkg/matchmaking/eligibility.go:241-252 | the gap in an eligible decision is the largest difference of two means in the room with the candidate |
| `Priority.PrioritizeWaitingRooms` | pkg/matchmaking/priority.go:37-72 | succeeds exactly on forming rooms; a permutation, old rooms first and oldest first, young rooms in input order |
| `Priority.LimitKeepsOldest` | pkg/matchmaking/priority.go:37-72 | cutting the order at a limit never drops an old room in favour of a younger one |
| `Eligibility.SkillGapIsPairwise` | pkg/matchmaking/eligibility.go:241-252 | the gap is within a limit exactly when every two members are |
| `Eligibility.ComputeValidatedSpread` | pkg/matchmaking/eligibility.go:201-239 | the validation loop returns the spread exactly for coherent predictions of the room |
| `Eligibility.EvaluateCandidate` | pkg/matchmaking/eligibility.go:90-157 | the decision follows the order of the checks, errors included |
| `Eligibility.Filter` | pkg/matchmaking/eligibility.go:68-88 | decisions in input order and independent; the batch fails exactly if it is refused or one evaluation fails |
| `Eligibility.EligibleIsFair` | pkg/matchmaking/eligibility.go:90-157 | an eligible candidate keeps all members pairwise within the hard limit, and a completing one keeps the room within both |
| `Selector.CompareTotal` | pkg/matchmaking/selector.go:61-81 | under one policy the comparator decides every pair, one way |
| `Selector.CompareTransitive` | pkg/matchmaking/selector.go:61-81 | and is transitive |
| `Selector.MixedPoliciesCycle` | pkg/matchmaking/selector.go:61-81 | under two policies it is no order: next to any valid waiting room with a member there are two more, valid and of the same mode and size, so that the three prefer each other in a circle |
| `Selector.LeastIsUnique` | pkg/matchmaking/selector.go:29-92 | exactly one option precedes all others |
| `Selector.SelectsIffEligible` | pkg/matchmaking/selector.go:29-58 | a room is selected exactly if one of the rooms is eligible |
| `Selector.SelectionIsOldest` | pkg/matchmaking/priority.go:74-76 | if any eligible room is past its age threshold, the selected room is an eligible one past its threshold, and no eligible room is older |
| `SelectionLaws.SelectionPrefers` | pkg/matchmaking/selector.go:29-92 | among the eligible rooms that age does not decide between, the selected one is the first in the input or, under a policy that prefers it, has the most members, then the smallest gap, then comes first |
| `Selector.SelectRoom` | pkg/matchmaking/selector.go:29-92 | scope check, options and sort together return the least eligible room |
| `Orchestration.NextRetryBoundary` | pkg/matchmaking/orchestration.go:124-146 | returns the least of the instants at which the view can change: the ticket's deadline and next step and those of its live rooms; it lies after the evaluation and not after the deadline, and `WakeUps.SleepingMissesNothing` says that sleeping until then is safe |
| `Orchestration.AttemptMatch` | pkg/matchmaking/orchestration.go:51-82 | match, retry, timeout or error as specified |
| `SelectionLaws.AttemptDecides` | pkg/matchmaking/orchestration.go:51-82 | an attempt fails exactly if its view is malformed or, while the deadline has not passed, a room cannot be decided; it matches exactly if some room is eligible by the deadline, times out exactly if the deadline has passed, or is now and no room is eligible, and is otherwise to be retried |
| `WakeUps.SleepingMissesNothing` | pkg/matchmaking/orchestration.go:51-82 | before the retry time every evaluation of the same view has the same outcome and asks for the same time |
| `WakeUps.RetryIsAhead` | pkg/matchmaking/orchestration.go:124-151 | a retry lies after the evaluation and not after the ticket's deadline |
| `WakeUps.ScheduleIsExact` | pkg/matchmaking/orchestration.go:124-151 | following the schedule ends by the deadline, at the earliest instant at which any evaluation would end it |
| `WakeUps.ScheduleMatchesIff` | pkg/matchmaking/orchestration.go:51-82 | unless the last evaluation is an error it ends in a match or a time-out, and in a match exactly if some instant up to the deadline would have matched |
| `TicketStore.TicketStore.AcceptTicket` | internal/postgres/tickets.go:39-121 | the transaction's new tables and reply: accepted, replayed or refused |
| `TicketStore.TicketStore.CancelTicket` | internal/postgres/tickets.go:123-211 | the same for a cancellation with its stored command |
| `TicketStore.TicketStore.ExpireTicket` | internal/postgres/tickets.go:236-325 | the same for an expiry under its claim and deadline |
| `TicketStore.TicketStore.AssignTicket` | internal/postgres/tickets.go:327-492 | the same for an assignment: membership in the least free seat, session, room transition, shadow work and events |
| `ResultStore.ResultStore.FinalizeResult` | internal/postgres/results.go:36-136 | the same for a verified result, with every refusal in the order of the checks |
| `ResultStore.ResultStore.ExpireResultRooms` | internal/postgres/results.go:138-216 | expires the unlocked rooms that are due longest, up to the limit and in one transaction, with an event under a derived identity for each |
| `ResultStore.ExpiryIsExact` | internal/postgres/results.go:148-211 | a batch of due rooms fails exactly if one of its event identities is used already; otherwise every open session of its rooms is forfeited, each room goes up one version and has one event, and nothing else changes |
| `MatchmakingQueue.TicketQueue.ClaimMatchmakingTickets` | internal/postgres/matchmaking_queue.go:31-86 | claims exactly the first due unlocked tickets by next attempt, request time and identity, up to the limit |
| `MatchmakingQueue.TicketBatchIsUnique` | internal/postgres/matchmaking_queue.go:35-50 | the batch a claim takes is determined |
| `MatchmakingQueue.TicketQueue.ScheduleTicketRetry` | internal/postgres/matchmaking_queue.go:88-106 | reschedules only a queued ticket under a live claim of the token |
| `TicketLeases.OneClaimPerTicket` | internal/postgres/matchmaking_queue.go:35-106 | in every run a ticket is handed out a second time before the first lease ends only if the first worker gave it back in between |
| `TransactionLaws.AcceptSucceedsIff` | internal/postgres/tickets.go:39-121 | a new request succeeds exactly if ticket and entry are unused, the tournament is configured for its rating model, and the event is new; the ticket then waits from its request time on, and the tables say nothing else new |
| `TransactionLaws.CancelSucceedsIff` | internal/postgres/tickets.go:123-211 | a cancellation changes the ticket exactly if it is queued, the command unused and the event new |
| `TransactionLaws.ExpireSucceedsIff` | internal/postgres/tickets.go:236-325 | an expiry succeeds exactly for a queued ticket whose claim has the command's token and runs past the database clock |
| `TransactionLaws.AssignSucceedsIff` | internal/postgres/tickets.go:327-492 | in every state that keeps the invariant an assignment succeeds exactly if the command is new and well formed, the ticket waits and, for a nonzero token, its claim has that token and runs past the database clock, the room takes the player, and the new identities are unused |
| `TransactionLaws.AssignSeats` | internal/postgres/tickets.go:404-489 | it then takes the next seat, counts both versions up, sets the result deadline and queues the shadow work when the room is full, emits one event, or two when it fills the room, and changes no other row |
| `TransactionLaws.FinalizeSucceedsIff` | internal/postgres/results.go:36-136 | in every state that keeps the invariant a result succeeds exactly if it is well formed and new, its room collects results for this mode, deck and rules, it is in time, its participants are exactly the room's sessions with their players, and its event is new |
| `TransactionLaws.FinalizeFinishes` | internal/postgres/results.go:282-301 | it submits the session of every participant who completed the game and forfeits exactly the others; the room is completed at the acceptance, one version up, with one event and one item of shadow work, and no other row changes |
| `TransactionLaws.LongestOverdueFirst` | internal/postgres/results.go:148-165 | only rooms past their result deadline are expired, and rooms left out because of the limit have not been overdue for longer |
| `TransactionLaws.LongestDueFirst` | internal/postgres/matchmaking_queue.go:35-50 | only queued tickets that are due and not leased are claimed, and tickets left out because of the limit have not been due for longer |
| `TransactionLaws.ClaimHands` | internal/postgres/matchmaking_queue.go:35-60 | a claimed ticket belongs to its worker while the lease lasts and is due again exactly when it is over |
| `TransactionLaws.RetrySucceedsIff` | internal/postgres/matchmaking_queue.go:88-106 | a retry succeeds exactly for the worker that holds the queued ticket, which is then due from the new time on and not earlier |
| `TicketLeases.StaleWorkerChangesNothing` | internal/postgres/tickets.go:370-378 | once a ticket was handed out under a newer token, no assignment, expiry or retry under another nonzero token changes any table while that lease lasts, in every run in which the new worker does not give the ticket back |
| `LifecycleRuns.StepKeepsInv` | internal/postgres/tickets.go:39-492 | every transaction keeps the whole invariant of the tables |
| `LifecycleRuns.RunKeepsInv` | internal/postgres/results.go:36-216 | and so does every run |
| `LifecycleRuns.AcceptanceAfterFill` | internal/postgres/results.go:110-130 | a finalization that passes its checks never breaks the timestamp constraint |
| `LifecycleLaws.ReachableIsExact` | docs/data-model.md:24-36 | in every reachable state seats are exactly 1..members, a ticket is assigned iff it has one membership and one session, a room left forming iff it is full, has a result iff completed, is never completed and expired, and its version counts members and terminal step |
| `LifecycleLaws.RunPersists` | docs/data-model.md:24-36 | requests, commands, seats, results, terminal states and events are permanent |
| `LifecycleLaws.AcceptReplays` | internal/postgres/tickets.go:77-92 | an accepted entry replays at every later point and any other request for it is refused, both without effect |
| `LifecycleLaws.CancelReplays` | internal/postgres/tickets.go:142-158 | a recorded cancellation replays and a conflicting reuse of its command is refused, without effect |
| `LifecycleLaws.ExpireReplays` | internal/postgres/tickets.go:255-271 | the same for an expiry |
| `LifecycleLaws.AssignReplays` | internal/postgres/tickets.go:338-352 | an assignment replays by identity with any claim at any time; a changed one is refused |
| `LifecycleLaws.FinalizeReplays` | internal/postgres/results.go:380-389 | a result replays by event with participants in any order; any other result for event or room is refused |
| `LifecycleLaws.ParticipantOrderIrrelevant` | internal/tournament/results.go:69-98 | the request digest does not depend on participant order |
| `LifecycleLaws.LifecycleFeedsOutbox` | internal/postgres/tickets.go:649-659 | the next emitted event is always valid, new and above its aggregate's others |
| `Delivery.ConsumerFollowsLifecycle` | internal/postgres/tickets.go:649-659 | in every joint run of transactions, outbox workers and consumer, what the consumer applied of a ticket or a room is a prefix of what the transactions emitted for it, and all of it once its events are delivered |
| `FairAssignment.SameVersionSameMembers` | internal/postgres/tickets.go:380-403 | equal room versions mean equal members |
| `FairAssignment.ScoredIsStored` | internal/postgres/matchmaking_queue.go:153-244 | with members read after the versions, the version check at assignment forces the scored list to be the stored one |
| `FairAssignment.FilledRoomsAreFair` | internal/worker/processor.go:46-120 | in every interleaving of worker reads, assignments, cancellations and lost claims each filled room holds exactly what was scored, within both hard limits |
| `BaselineUpdate.PairBalances` | pkg/rating/baseline.go:115-135 | what one side of a pair gains the other loses, with equal information |
| `BaselineUpdate.GradientsCancel` | pkg/rating/baseline.go:115-135 | the gradients of a room sum to zero |
| `BaselineUpdate.PlaceOrdersEqualPlayers` | pkg/rating/baseline.go:136-164 | of two players with equal priors the better placed, and only it, ends with the higher mean, whoever else played; both end equally certain |
| `BaselineUpdate.UncertaintyShrinks` | pkg/rating/baseline.go:136-164 | uncertainty never grows and the new rating is again acceptable |
| `BaselineUpdate.Update` | pkg/rating/baseline.go:92-165 | validation, sorting and both loops return the specified updates |
| `BaselineLaws.AheadOdds` | pkg/rating/baseline.go:137-138 | the odds of finishing ahead are the exponential of the mean difference in units of the comparison scale |
| `BaselineLaws.FavouriteIsAhead` | pkg/rating/baseline.go:137-138 | the player with the higher mean is favoured, at least evenly |
| `BaselineLaws.ScaleIsRoot` | pkg/rating/baseline.go:180-192 | the square of the comparison scale is the sum of both players' variances of skill and performance |
| `BaselineLaws.TermsMean` | pkg/rating/baseline.go:137-141 | a pair moves the mean by outcome less expectation over the scale and adds expectation times its complement over the squared scale |
| `BaselineLaws.StrongerCountsMore` | pkg/rating/baseline.go:137-140 | for equal uncertainties the same result against a stronger opponent never counts less |
| `BaselineLaws.UpdateIsPosterior` | pkg/rating/baseline.go:126-163 | on the results of an update: the precision is the precision before plus the information summed over the opponents, the mean moves by the posterior variance times the gradient summed over them, and the uncertainty is the root of that variance, not below the minimum |
| `BaselineLaws.UpdateSucceedsIff` | pkg/rating/baseline.go:92-125 | an update succeeds exactly for a valid result and acceptable ratings of exactly its participants, not newer than the processing time |
| `BaselineUpdate.ParticipantOrderIrrelevant` | pkg/rating/baseline.go:92-113 | the updates do not depend on participant order |
| `BaselineUpdate.RatingHistory` | pkg/rating/baseline.go:92-165 | over any games uncertainty is non-increasing and in bounds, and the game count grows by exactly the rated games |
| `RatingQueue.Queue.ClaimNextRatingResult` | internal/postgres/rating_queue.go:32-88 | claims the unique earliest unrated result, or nothing if it is not due |
| `RatingQueue.Queue.ProcessRatingResult` | internal/postgres/rating_queue.go:90-170 | one transaction: claim check, updates of all participants, history, processed marker |
| `RatingQueue.Queue.ScheduleRatingRetry` | internal/postgres/rating_queue.go:172-190 | reschedules only under a live claim of the token |
| `RatingQueue.PersistUpdates` | internal/postgres/rating_queue.go:271-306 | the loop writes rating, revision and history row of every update in order |
| `QueueLaws.HeadIsFirstAvailable` | internal/postgres/rating_queue.go:44-50 | the head is the unrated result that became available first, by identity among equals |
| `QueueLaws.ClaimTakesHead` | internal/postgres/rating_queue.go:61-80 | a claim takes the head exactly if it is due and not leased at that time, and its worker then holds it until the lease ends |
| `QueueLaws.RatingRetryIff` | internal/postgres/rating_queue.go:172-190 | a retry succeeds exactly for the holder; the result can be claimed from the new time on and not earlier |
| `QueueLaws.BroughtIs` | internal/postgres/rating_queue.go:218-256 | a player brings the current rating of the room's model, or else the snapshot of the ticket |
| `QueueLaws.RatedIff` | internal/postgres/rating_queue.go:90-126 | a result is rated exactly by the holder of a live lease, once, if the model can update everybody |
| `QueueLaws.RatedWrites` | internal/postgres/rating_queue.go:127-170 | the result is closed and the current ratings of its players, and only they, are the posteriors of the update, each with one more revision and history row |
| `RatingRuns.HistoryIsChain` | internal/postgres/rating_queue.go:271-306 | in every run a player's history is a chain that ends in the current rating; revision and game growth are its length |
| `RatingRuns.RatedExactlyOnce` | internal/postgres/rating_queue.go:90-170 | a participant has one history row for a result if it is processed, and none otherwise |
| `RatingRuns.RatedInOrder` | internal/postgres/rating_queue.go:42-60 | a rated result was claimed before under the same token, and everything stored sooner at that claim has been rated |
| `ShadowTimeline.RatingShadowQueue.ClaimNextRatingShadowWork` | internal/postgres/rating_shadow_queue.go:30-84 | claims the head of the timeline by position, priority and identity, or nothing |
| `ShadowTimeline.RatingShadowQueue.ProcessRatingShadowWork` | internal/postgres/rating_shadow_queue.go:86-131 | one transaction over a room or a result, with its skips and its failure on a newer state |
| `QueueLaws.HeadIsEarliestItem` | internal/postgres/rating_shadow_queue.go:42-50 | the head of the timeline is the open item at the earliest position, a room before a result, then by identity |
| `QueueLaws.ClaimTakesItem` | internal/postgres/rating_shadow_queue.go:51-84 | a claim takes it exactly if it is due and not leased at that time |
| `QueueLaws.ShadowRetryIff` | internal/postgres/rating_shadow_queue.go:133-153 | a retry succeeds exactly for the holder of the item |
| `QueueLaws.ShadowNeedsLease` | internal/postgres/rating_shadow_queue.go:86-131 | only the holder of a live lease changes anything, and not before the item's position |
| `QueueLaws.ShadowWrites` | internal/postgres/rating_shadow_queue.go:184-394 | a closed room leaves a prediction at its fill time from the states then stored, or is skipped exactly if it is unknown or has no candidate; a closed result dates all its players' states at its availability, or is skipped exactly if its room was not predicted |
| `ShadowRuns.PredictionSeesThePast` | internal/postgres/rating_shadow_queue.go:184-292 | a room is predicted before any of its results is handed out, from stored states dated at or before the fill |
| `ShadowRuns.PredictionBeforeResult` | internal/postgres/rating_shadow_queue.go:333-343 | a result moves candidate states only after its room's prediction is committed |
| `ShadowBlocking.ItemFailsIffBlocked` | internal/postgres/rating_shadow_queue.go:456-501 | in every run an owned room or result fails exactly if it is blocked: a state of one of its players is dated after its position |
| `ShadowBlocking.BlockedForever` | internal/postgres/rating_shadow_queue.go:43-64 | a blocked item stays blocked in every continuation and is never closed |
| `ShadowBlocking.BlockedStopsTheRest` | internal/postgres/rating_shadow_queue.go:43-64 | and nothing behind it is handed out |
| `ShadowProgress.CanBlockIff` | internal/postgres/rating_shadow_queue.go:479-489 | some continuation blocks an open item exactly if it is blocked now, or a result from after it is leased, not itself blocked, and shares a player and the candidate with it |
| `ShadowProgress.CanFailIff` | internal/postgres/rating_shadow_queue.go:86-131 | some continuation makes an attempt on it fail exactly if that holds and the item can come to a worker: it is leased, or nothing ahead of it is blocked |
| `ShadowProgress.CanCloseIff` | internal/postgres/rating_shadow_queue.go:86-131 | some continuation closes an open item exactly if it is not blocked and can come to a worker |
| `ShadowProgress.CanDrainIff` | internal/postgres/rating_shadow_queue.go:43-64 | the queue can be worked off completely exactly if no item is blocked now |
| `ShadowWitness.LateRoomIsBlocked` | internal/postgres/rating_shadow_queue.go:479-489 | a run from the start, with rooms of five, in which a room recorded after a later rating is blocked at once |
| `ShadowWitness.LateResultIsBlocked` | internal/postgres/rating_shadow_queue.go:333-343 | one in which every room is predicted and a late result is blocked |
| `ShadowWitness.LateRoomIsBlockedLater` | internal/postgres/rating_shadow_queue.go:479-489 | one in which a late room is free when recorded and threatened by a result that is out with a worker |
| `ShadowOrder.InOrderNeverBlocks` | internal/postgres/rating_shadow_queue.go:43-64 | if work is recorded behind what was handed out, nothing is ever blocked |
| `Statistics.ObserveIsSummary` | pkg/rating/dataset.go:135-146 | the one-pass accumulator equals the two-pass mean and squared deviations after every value |
| `Statistics.OwnStandardization` | pkg/rating/dataset.go:254-262 | standardized by their own statistics, values sum to zero and their squares to the count, or all are zero if constant |
| `FeatureData.SplitFeatureBatches` | pkg/rating/dataset.go:28-85 | succeeds exactly for compatible valid batches on both sides of the cutoff; loses nothing and keeps time order |
| `FeatureData.FitFeatureStandardizer` | pkg/rating/dataset.go:119-172 | the nested loops compute the summary of every feature's present training values |
| `FeatureData.Transform` | pkg/rating/dataset.go:224-280 | refuses a foreign standardizer, otherwise transforms every row |
| `FeatureLaws.TrainingIsStandardized` | pkg/rating/dataset.go:208-214 | the law of its own standardization for every feature of the training part |
| `FeatureLaws.ColumnIs` | pkg/rating/dataset.go:130-146 | the values a feature is fitted on are exactly those that are present |
| `FeatureLaws.MissingStaysMissing` | pkg/rating/dataset.go:242-280 | a missing observation stays missing with value zero, and no name or player changes |
| `FeatureLaws.OrderIsKept` | pkg/rating/dataset.go:254-262 | standardizing keeps the order of the observations of a feature |
| `FeatureLaws.HoldoutNeverLeaks` | pkg/rating/dataset.go:25-30 | data sets that agree on what was available by the cutoff fit the same standardizer, whatever came later and in any order |
| `Profiles.Observe` | pkg/rating/extended.go:139-170 | the loops update count and running mean of each present feature, or refuse the result |
| `Profiles.ProfileIsMean` | pkg/rating/extended.go:139-170 | after any results a profile holds the count and arithmetic mean of all present observations |
| `Profiles.ProfileOrderIrrelevant` | pkg/rating/extended.go:150-166 | in any order |
| `Calibration.EvaluateCalibration` | pkg/rating/calibration.go:91-173 | the triple loop scores exactly the accepted homogeneous lists and computes their report |
| `Calibration.EvaluateHoldoutCalibration` | pkg/rating/calibration.go:61-87 | the same behind the holdout boundary |
| `CalibrationLaws.CalibrationConserves` | pkg/rating/calibration.go:91-173 | bins hold players times room size cells, observed frequencies add up to the players, bins predict between their bounds, calibration error is in [0,1], Brier at most 2 plus the tolerance |
| `ScoringScope.CalibratedIff` | pkg/rating/calibration.go:91-215 | a list is scored exactly if it is not empty, the bins are 2 to 100, and every prediction is of its result's room, was made before the game was over, and has for each of the players who took part one distribution that sums to one with the stated mean and chance to win, all of one model, mode, rules and size |
| `ScoreLaws.ScoredByPlace` | pkg/rating/calibration.go:126-153 | every prediction is scored against the place its player took |
| `ScoreLaws.PlayerBrier` | pkg/rating/calibration.go:139-152 | a player's quadratic score is the sum of all squared probabilities, less twice the one given to the actual place, plus one |
| `ScoreLaws.CertaintyScoresZero` | pkg/rating/calibration.go:91-173 | being certain of what happens scores zero, Brier and log loss |
| `ScoreLaws.LossNonNegative` | pkg/rating/calibration.go:151-152 | with a logarithm that is negative below one no room has a negative loss |
| `ScoreLaws.ReportMeaning` | pkg/rating/calibration.go:108-172 | the bins of a report are half open, the last one closed, with the counts, mean predictions and observed frequencies of the cells in them; the calibration error is the average distance between predicted and observed |
| `Comparison.CompareHoldoutModels` | pkg/rating/comparison.go:86-221 | succeeds exactly on comparable observations and reports every segment, the totals and the verdict |
| `ComparisonVerdict.SegmentVerdict` | pkg/rating/comparison.go:314-358 | on every produced report a segment has passed exactly if its rooms reach the minimum and each candidate score is at most the baseline score plus its allowance and the tolerance; each reason is listed exactly if its condition fails, and the difference is candidate minus baseline |
| `ComparisonVerdict.ReportVerdict` | pkg/rating/comparison.go:196-221 | a produced report is eligible exactly if every segment is so and the pooled Brier improvement reaches the minimum; its difference is candidate minus baseline |
| `Comparison.CalibratesIff` | pkg/rating/calibration.go:61-87 | whether a list calibrates does not depend on its order |
| `Comparison.GroupSegments` | pkg/rating/comparison.go:101-151 | the grouping loop splits exactly by segment and refuses mixed ones |
| `Activation.ValidateForActivation` | pkg/rating/comparison.go:225-293 | the loop decides exactly the recomputed consistency of a report |
| `ActivationLaws.ActivationIff` | pkg/rating/comparison.go:225-293 | the activation check accepts exactly the reports that are marked eligible without reasons, whose versions, cutoffs and policy fit, whose segments all pass on their own reports within the allowances, and whose totals are the averages weighted by players and cells, with enough improvement |
| `ComparisonLaws.PooledScores` | pkg/rating/comparison.go:368-384 | overall Brier and log loss are the pooled averages over all players |
| `ComparisonLaws.SegmentationIrrelevant` | pkg/rating/comparison.go:86-221 | they are the same however the observations are split and ordered |
| `ComparisonLaws.EligibleActivates` | pkg/rating/comparison.go:225-293 | a report activates exactly if it is eligible and some result became available after the zero time |
| `ZeroTimeReport.EligibleButRefused` | pkg/rating/comparison.go:225-240 | one room of five players, finished before the zero time, whose comparison is eligible and whose report is refused |
| `Generator.MixPermutes` | internal/simulator/generator.go:344-350 | the output mix is a permutation of the 64-bit words, with its inverse |
| `Generator.DrawsDiffer` | internal/simulator/generator.go:344-350 | 2^64 consecutive draws are all different |
| `Generator.RejectionsBounded` | internal/simulator/generator.go:356-364 | at most threshold words in a row are rejected |
| `Generator.RandomSource.Bounded` | internal/simulator/generator.go:356-364 | the loop ends with the first accepted word, reduced |
| `Generator.ResiduesAreEven` | internal/simulator/generator.go:357 | every residue is taken by exactly floor(2^64/limit) accepted words |
| `Generator.ChoiceIsProportional` | internal/simulator/generator.go:288-304 | exactly weight times floor(2^64/total) states lead to a partition, and no state leads to two |
| `Generator.ChoosePartition` | internal/simulator/generator.go:288-296 | the subtracting loop picks the owner of the target |
| `Generator.DrawPartition` | internal/simulator/generator.go:178 | one arrival's partition is drawn by the first accepted word |
| `OutcomeGenerator.GenerateOutcome` | internal/simulator/generator.go:208-273 | validated request, ranking loop and places return the specified result |
| `OutcomeGenerator.SkillDecides` | internal/simulator/generator.go:238-267 | with the same noise the more skilled player finishes ahead |
| `OutcomeGenerator.RoomResult` | internal/simulator/runner.go:278-312 | a room's result ends the result delay after its fill and becomes available the availability delay later; with the same noise the arrival with the higher latent skill finishes ahead |
| `OutcomeGenerator.PlacesFollowPerformance` | internal/simulator/generator.go:238-267 | a better place never has a lower performance |
| `RoomFormation.ActiveRoomsAt` | internal/simulator/runner.go:225-238 | unfilled rooms past the deadline time out; the others, and only they, stay active |
| `RoomFormation.CompleteRoom` | internal/simulator/runner.go:278-312 | the prediction asked for is that of the members, the outcome that of the arrivals |
| `SimulatorRun.PlaceArrival` | internal/simulator/runner.go:116-160 | one turn of the loop keeps every room exact; its failures need an undecided predictor, a missing outcome or times at the zero time |
| `SimulatorRun.FormRooms` | internal/simulator/runner.go:102-170 | the run ends in exact rooms, each filled or timed out; with deciding capabilities it always does |
| `SimulatorRun.NeverTimedOut` | internal/simulator/runner.go:144-145 | a new ticket never times out at its arrival |
| `SimulatorRun.ChosenRoom` | internal/simulator/runner.go:152-155 | the selected room is always an active forming one |
| `SimulatorRun.EveryArrivalInOneRoom` | internal/simulator/runner.go:135-158 | every arrival lies in exactly one room |
| `SimulatorRun.FilledRoomIsFair` | internal/simulator/runner.go:156-160 | a filled room holds exactly its capacity, within both hard limits |
| `SimulatorReport.BuildReport` | internal/simulator/report.go:83-141 | succeeds exactly if every filled room has a prediction and every partition calibrates |
| `SimulatorLaws.RunConserves` | internal/simulator/report.go:83-173 | tickets and rooms split exactly into filled and timed out, samples stay inside the policy, partitions add up to the whole |
| `SimulatorLaws.RoomSamples` | internal/simulator/report.go:143-231 | a room adds everybody's wait up to its fill or deadline, the time from its creation to that end and, if filled, the largest differences of its members' means and of its players' chances to win |
| `SimulatorLaws.ResolvedLast` | internal/simulator/report.go:89-99 | the run is resolved when the last room is |
| `SimulatorLaws.RunReports` | internal/simulator/report.go:111-121 | coherent predictions and answering outcomes always calibrate |
| `RunSimulation.Run` | internal/simulator/runner.go:102-171 | all of this in one call; a valid workload with capable dependencies always gets its report |
| `RunSimulation.BaselineIsCapable` | internal/simulator/runner.go:102-171 | the baseline and the outcome generator are such dependencies |

## Left out

- Identifiers are natural numbers in the order of the database collation, zero is the empty string; times are integer nanoseconds, zero is the unset time. Saturation of time differences is not modelled.
- Floating point: all numbers are reals, so rounding, infinities and not-a-number checks are absent; the few places where not-a-number decides a comparison are written as conditions on the divisor.
- Payloads, JSON and digests: a digest is the canonical request itself; derived event identifiers are arbitrary parameters of the step.
- SQL below transactions: locks, isolation, `SKIP LOCKED` and connection loss appear only as the freedom to claim any bounded set of due tickets or rooms, or any unlocked set of outbox rows.
- One store class holds all lifecycle tables in one field; the timestamps of sessions and the never-written cancelled state of rooms are not modelled.
- Lifecycle runs are more general than the claim statements: a step may claim any due tickets and expire any due rooms within the limit, in any order.
- The consumer's check of its own token's length at construction.
- The worker's `Handle` and `assign` are steps of `FairAssignment`, not methods, because other steps run between their calls; observations and log records are left out.
- Stable sorts of the source are insertion sorts, and lists built from map keys are the ascending list of the keys.
- `OutboxRunner.RunOnce`: does not model cancellation, operation timeouts or the overlap of deliveries in time; the claims are settled one after the other in any order, which `OutboxRunner.SettleAll` allows.
- Deployments of candidate models are fixed per room.
- `ShadowTimeline.RatingShadowQueue.ProcessRatingShadowWork`: a player state is represented by its date; the rating and profile values behind it are covered by `BaselineUpdate` and `Profiles`, and errors of a model, a deployment or the scoring are not modelled.
- `FeatureData.SplitFeatureBatches`: feature values and batch metadata are checked by one predicate, not check by check.
- `Calibration.EvaluateCalibration`: the logarithm is an arbitrary function, since no law of it is used.
- Uniform, normal and arrival-delay sampling and the seed derivation of the simulator; `OutcomeGenerator.GenerateOutcome` takes the noise as an arbitrary function of room, deck and player.
- The simulator's rooms are one list of values with positions as references, so the sharing of room objects between its three containers is not modelled.
- `SimulatorReport.BuildReport`: percentiles, dispersion of expected places and conversion to milliseconds are not modelled.
- HTTP handlers other than the consumer's, authentication, configuration, metrics, migrations, read-only queries and the shadow report reader.
- Activation and rollback records of models.
- Restart of the consumer, which loses its in-memory record of applied events.
