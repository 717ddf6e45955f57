# Verified model of llm-d RL components

A Dafny model of the parts of llm-d RL that carry state, protocols or algebra, with proofs of what
they are for. `dafny verify dfyconfig.toml` checks the whole project.

## What is modelled

**The admission ledger** (`Growth`, `Estimates`, `Totals`, `Scheduling`, `Addressing`, `Ledger`,
`LedgerRuns`, `LedgerBudget`, `LedgerPulls`, `LedgerOracle`, `LedgerLpt`, `LedgerBatches`,
`LedgerArrivals`, `LedgerLearning`, `LedgerLandings`, `LedgerMoves`, `LedgerSources`,
`LedgerOvershoot`, `LedgerRetries`, `Budgets`, `Admission`, `Replay`). A ledger call is cut at its
awaits (the poll sleep, the wait for a group's leader, the LPT window) into segments that run
without interruption. `Ledger` gives each segment as a function on the ledger state, `Admission` is
the object whose methods update its fields and equal those functions, `Replay` drives it through any
events, and `LedgerRuns` lets the segments of any number of requests interleave freely, each request
taking its turns in order as the wave client drives them. The main results hold in every state such
a run can reach, and read what they speak of off the calls.

**The EPP config merge** (`EppConfig`, `EppLayers`, `EppIdempotence`, `EppRepeats`). Documents are
maps, lists and leaves. A merge keeps list order, and each law comes with its exact condition: when
a merge is path-wise override, when two bracketings agree, and when a second application changes
nothing.

**The ext-proc wire format** (`Powers`, `Protobuf`, `Headers`). The hand-written encoder and decoder,
against the Protocol Buffers Encoding document, sections "Base 128 Varints" and "Message Structure".

**The rollout controller** (`Health`, `WeightUpdate`, `WeightRuns`, `EnginePool`, `PodWatcher`). Pod
events become registrations, registrations become pool membership, and membership guards the
weight-transfer gate; the four phases of a weight update run against engines that may each fail in
each phase. The pool's and the watcher's locks make each method one step, and `Valid()` of the
watcher and of the pool, which every method keeps, is their agreement in every reachable state.

**Smaller cores**: the prompt id generator (`Prompts`), advantage estimation (`Gae`), and the
registration shim with its endpoints file (`Shim`, `Endpoints`). `Text` holds the string operations.

Token counts, budgets, charges, rewards and values are real numbers. Where an operation can fail, the
failure is a value: `Raised`, `None`, or a false result.

## Where the code and its documentation differ

- The comment on windowed LPT claims a makespan near 4/3. The code places by estimated free budget, so
  every batch meets that bound exactly when the free budgets are equal as the window closes
  (`Budgets.EqualBudgetsExactlyWhen`). A run in which no session arrives in a group and all wait for the
  window closes it over equal budgets (`LedgerBatches.BatchesAreNearOptimal`); a group leader that is
  booked first unbalances them, and a batch can then miss the bound
  (`LedgerBatches.LeaderUnbalancesBatch`).
- The config module says that every list of its schema merges by identity. The code merges by identity
  only when both lists are non-empty and wholly identity-bearing, so an empty list replaces a keyed one;
  `EppConfig.MergeIsOverride` gives the exact boundary, and `EppLayers.AssociatesExactlyWhen` says when
  the grouping of layers matters because of it.
- A list that repeats an identity merges item after item into the last slot of that identity, so applying
  a layer twice can change the result; `EppIdempotence.IdempotentExactlyWhen` gives the exact condition.
- The ledger books `max(0, growth)` for a turn served in place, so a context that shrinks leaves tokens
  booked that nothing gives back; `LedgerRuns.QuietMeansEmpty` says exactly when this happens, and
  `LedgerOvershoot.ShrinkStaysBooked` is a run in which it does.
- A failed pause and a failed cache reset return without a resume; `WeightUpdate.PausedExactlyWhen`
  gives every case that leaves an engine paused. An update that fails after its load leaves engines on
  weights that the pool does not report, as an added engine can be (`WeightRuns.AllCurrentExactlyWhen`,
  with `WeightRuns.FailedResetIsStale` and `WeightRuns.AddedEngineIsStale` as runs that do so).
- A later init that only some engines answer leaves the gate open with ranks of two assignments among its
  members; `WeightRuns.HeldRanksExactlyWhen` and `WeightRuns.FailedInitCollides`.
- Naming a listener past the loopback block raises after the booking was made, and making the call again
  books the turn twice; `LedgerRetries.RepeatedCallsStrand` says what that leaves behind.
- A registration with a malformed URL is kept although the call fails, and the file then stays stale
  until that worker is gone; `Shim.FileIsLastGood` says what it then lists.

## Model

| member | source | states |
|---|---|---|
| `LedgerRuns.RunsConserve` | quickstart/benchmarks/verl/src/llm_d_rl_verl_bench/epp_dev/wave_admission/admission.py:246-262 | Over every interleaving of every request's calls: each replica's used tokens are the newest sizes of the requests resident there plus exactly the tokens that smaller in-place turns left booked; a request is on the books exactly while it is between its first booking and its completion |
| `LedgerRuns.ClampsNeverBite` | quickstart/benchmarks/verl/src/llm_d_rl_verl_bench/epp_dev/wave_admission/admission.py:258-262 | In every reachable state the zero clamp of a release or a completion changes nothing: what it subtracts is on the books of that replica |
| `LedgerRuns.QuietMeansEmpty` | quickstart/benchmarks/verl/src/llm_d_rl_verl_bench/epp_dev/wave_admission/admission.py:511-522 | Once no request is resident, a replica is back to zero used tokens if and only if no turn served in place on it ever shrank; otherwise it keeps exactly the shrunk amounts for good |
| `LedgerOvershoot.ShrinkStaysBooked` | quickstart/benchmarks/verl/src/llm_d_rl_verl_bench/epp_dev/wave_admission/admission.py:246-256 | A five-call run of one request whose context shrinks: it completes, nobody is resident, and the shrunk tokens are still used |
| `LedgerLearning.HistoriesFit` | quickstart/benchmarks/verl/src/llm_d_rl_verl_bench/epp_dev/wave_admission/admission.py:246-262 | In every reachable state the turns booked for a resident request are exactly those since it last completed, in order, each at the size it was measured at, with the turn in progress at the size it was booked at |
| `LedgerLearning.CompletionFeeds` | quickstart/benchmarks/verl/src/llm_d_rl_verl_bench/epp_dev/wave_admission/admission.py:511-522 | A completion feeds exactly one observation for each turn measured since the last one, filed under that turn's own size and index, with the growth from that size to the newest |
| `LedgerLearning.RunsLearn` | quickstart/benchmarks/verl/src/llm_d_rl_verl_bench/epp_dev/wave_admission/admission.py:511-522 | In every reachable state the estimator's tables are the batch statistics of the samples read off the measuring and completing calls alone, however they interleaved |
| `LedgerLearning.ResidentsAreChargedExactly` | quickstart/benchmarks/verl/src/llm_d_rl_verl_bench/epp_dev/wave_admission/admission.py:221-256 | In every reachable state each resident's charge is, for its newest size and turn: what is left to the final size it declared last in a replay, else the expected growth over the samples fed before it was last booked or measured |
| `LedgerBudget.BudgetHolds` | quickstart/benchmarks/verl/src/llm_d_rl_verl_bench/epp_dev/wave_admission/admission.py:295-321 | If every booking has room where it lands, contexts do not shrink and no turn measures more than it booked, no replica ever exceeds its budget, over every interleaving; the reserves that this needs are shown non-negative through the estimator |
| `LedgerBudget.PlainRunsStayWithinBudget` | quickstart/benchmarks/verl/src/llm_d_rl_verl_bench/epp_dev/wave_admission/admission.py:233-321 | With wave1_size at most 0, no LPT, no staggering, no forced admission and no overshoot, the gate of the code itself provides that room at every await point, so the budget holds in every reachable state |
| `LedgerArrivals.WaitsExactlyWhen` | quickstart/benchmarks/verl/src/llm_d_rl_verl_bench/epp_dev/wave_admission/admission.py:290-321 | Without a window or groups, a session that arrives in time waits if and only if at least wave1_size sessions arrived before it and no replica has its context free |
| `LedgerLandings.StepOvershootsExactlyWhen` | quickstart/benchmarks/verl/src/llm_d_rl_verl_bench/epp_dev/wave_admission/admission.py:246-522 | From any reachable state within budget, for every kind of call: with the replica it lands on and the tokens it adds read off the state before (the emptiest one, the planned one, the emptiest besides the leader's or the present one, the residence; the context, the growth, or the measured difference), the call leaves the budget if and only if it adds more there than that replica has unused; a call that waits or completes never does |
| `LedgerOvershoot.UngatedOvershootsExactlyWhen` | quickstart/benchmarks/verl/src/llm_d_rl_verl_bench/epp_dev/wave_admission/admission.py:290-321 | So a booking of the emptiest replica without looking for room (wave 1, an expired deadline, a group leader, a closed or abandoned window, a return after completion) leaves the budget if and only if its context exceeds what that replica has unused |
| `LedgerOvershoot.StayingOvershootsExactlyWhen` | quickstart/benchmarks/verl/src/llm_d_rl_verl_bench/epp_dev/wave_admission/admission.py:428-493 | And a later turn that stays leaves it if and only if its growth exceeds what its replica has unused |
| `LedgerOvershoot.FirstBookingsOvershoot` | quickstart/benchmarks/verl/src/llm_d_rl_verl_bench/epp_dev/wave_admission/admission.py:290-353 | One session out of time, one of the first wave, or one group leader exceeds any smaller budget at once |
| `LedgerOvershoot.LptBatchOvershoots` | quickstart/benchmarks/verl/src/llm_d_rl_verl_bench/epp_dev/wave_admission/admission.py:392-426 | A session alone in the LPT window takes the ledger from within any smaller budget to beyond it when the window ends, as the condition on the planned replica says |
| `LedgerOvershoot.LaterTurnOvershoots` | quickstart/benchmarks/verl/src/llm_d_rl_verl_bench/epp_dev/wave_admission/admission.py:428-493 | A session admitted with room exceeds the budget at its next turn |
| `LedgerMoves.TurnLeavesExactlyWhen` | quickstart/benchmarks/verl/src/llm_d_rl_verl_bench/epp_dev/wave_admission/admission.py:428-493 | Over every run: a later turn leaves its replica if and only if migration is on and either another replica is emptier by more than the slack's share of the budget and has the context free, or the growth misses the free budget here by at least the applicable ratio of the context and another replica has the context free; it then goes where no other replica has more free |
| `LedgerMoves.RatioDecides` | quickstart/benchmarks/verl/src/llm_d_rl_verl_bench/epp_dev/wave_admission/admission.py:460-475 | In every reachable state the cost ratio that does not apply has no influence on whether a turn leaves, and raising the one that does never makes a staying turn leave |
| `LedgerMoves.FreePullsAlwaysMove` | quickstart/benchmarks/verl/src/llm_d_rl_verl_bench/epp_dev/wave_admission/admission.py:460-475 | With pulls available at ratio 0, a turn that does not fit leaves whenever another replica has its context free |
| `LedgerPulls.GroupsStayOk` | quickstart/benchmarks/verl/src/llm_d_rl_verl_bench/epp_dev/wave_admission/admission.py:323-382 | In every reachable state each claimed group has exactly one leader request, its recorded leader replica is where that request's own turn 0 was placed, and the group is ready only after that request recorded turn 0 |
| `LedgerPulls.PullsAreSafe` | quickstart/benchmarks/verl/src/llm_d_rl_verl_bench/epp_dev/wave_admission/admission.py:323-493 | Every kv_source handed out in any run reads back as the listener of one known replica other than the destination: for a first turn the turn-0 replica of a leader that has recorded, for a later turn the replica the request was resident on |
| `LedgerSources.AnswersNameSources` | quickstart/benchmarks/verl/src/llm_d_rl_verl_bench/epp_dev/wave_admission/admission.py:323-493 | Over every run a placed call is told to pull exactly when it is a turn that left its replica, from there, or a released group member with another replica to go to, from its leader, by the socket of that replica's place in the fleet, whenever pulls are available and it is one of the first 254; nobody else is |
| `LedgerPulls.RaisesExactlyWhen` | quickstart/benchmarks/verl/src/llm_d_rl_verl_bench/epp_dev/wave_admission/admission.py:355-493 | Over every run a call raises if and only if pulls are available and the replica it would pull from (the leader of a released group, or the old replica of a turn that moves) is past the 254th; it raises after it has booked |
| `LedgerPulls.SmallFleetNeverRaises` | quickstart/benchmarks/verl/src/llm_d_rl_verl_bench/inproc_sidecar/p2p_addressing.py:11-22 | With at most 254 replicas no call of any run raises |
| `LedgerRetries.FleetRaisesExactlyWhen` | quickstart/benchmarks/verl/src/llm_d_rl_verl_bench/epp_dev/wave_admission/admission.py:323-382 | A staggered fleet of distinct replicas that can pull has a run with a raising call if and only if it has more than 254 replicas |
| `LedgerRetries.LargeFleetRaises` | quickstart/benchmarks/verl/src/llm_d_rl_verl_bench/epp_dev/wave_admission/admission.py:323-382 | Such a run: 254 sessions fill the first replicas, a group's leader lands on the next and records its turn 0, and a member of its group raises |
| `LedgerRetries.RepeatedCallsStrand` | quickstart/benchmarks/verl/src/llm_d_rl_verl_bench/epp_dev/wave_admission/llm_client.py:78-146 | After any run: when a call that raised is made again for the same turn and booked, every replica's tokens are conserved except that the one first booked keeps exactly the first booking of a turn 0, or the surplus of a later turn |
| `LedgerRetries.BalancedExactlyWhen` | quickstart/benchmarks/verl/src/llm_d_rl_verl_bench/epp_dev/wave_admission/admission.py:246-262 | So the books balance again if and only if that surplus is zero |
| `Addressing.SocketNameRoundTrip` | quickstart/benchmarks/verl/src/llm_d_rl_verl_bench/epp_dev/wave_admission/llm_client.py:104-116 | The client's split at the last colon gives back the host and port that the ledger named |
| `Addressing.ListenerHostInjective` | quickstart/benchmarks/verl/src/llm_d_rl_verl_bench/inproc_sidecar/p2p_addressing.py:11-22 | Two replicas never share a listener address |
| `Addressing.BlockEnds` | quickstart/benchmarks/verl/src/llm_d_rl_verl_bench/inproc_sidecar/p2p_addressing.py:11-22 | The block runs from 127.0.7.1 to 127.0.7.254, and a socket in it is written with its port |
| `LedgerOracle.FreeIsUndeclared` | quickstart/benchmarks/verl/src/llm_d_rl_verl_bench/epp_dev/wave_admission/admission.py:221-241 | In every replay in which sessions declare finals that their contexts respect, a replica's estimated free budget is the budget less the declared finals of its residents less the kept shrink |
| `LedgerOracle.ServedTurnsAreNeutral` | quickstart/benchmarks/verl/src/llm_d_rl_verl_bench/epp_dev/wave_admission/admission.py:246-256 | In such a replay a turn served in place without shrinking, and the recording of any turn, leave every replica's estimate unchanged |
| `LedgerArrivals.DeclaredBatchesAreNearOptimal` | quickstart/benchmarks/verl/src/llm_d_rl_verl_bench/epp_dev/wave_admission/admission.py:384-426 | The same for what the sessions declared: the call that closes the window places exactly the sessions that wait in it, longest declared work first, so that no replica carries more of the work their Start calls declared than 4/3 - 1/(3m) times the makespan of any assignment |
| `LedgerArrivals.WindowsHoldDeclaredWork` | quickstart/benchmarks/verl/src/llm_d_rl_verl_bench/epp_dev/wave_admission/admission.py:392-396 | Over every run each session stands in the window with the total work that its Start call declared, or with its context when it declared none or zero |
| `LedgerBatches.BatchesAreNearOptimal` | quickstart/benchmarks/verl/src/llm_d_rl_verl_bench/epp_dev/wave_admission/admission.py:384-426 | In every LPT run in which no session arrives in a group or gives up waiting, the batch that the window closes over starts from equal free budgets, plans every waiting session, and loads no replica with more than 4/3 - 1/(3m) times the makespan of any other assignment |
| `LedgerBatches.LeaderUnbalancesBatch` | quickstart/benchmarks/verl/src/llm_d_rl_verl_bench/epp_dev/wave_admission/admission.py:323-426 | A run that closes its window over unequal free budgets: a group leader on one of two replicas, then two sessions of less work, whose batch puts more on one replica than the bound allows |
| `LedgerLpt.BatchIsNearOptimal` | quickstart/benchmarks/verl/src/llm_d_rl_verl_bench/epp_dev/wave_admission/admission.py:384-426 | From equal free budgets on distinct replicas, the batch that closes the window loads the replicas with exactly the total work, and no replica with more than 4/3 - 1/(3m) times the makespan of any other assignment |
| `Budgets.EqualBudgetsExactlyWhen` | quickstart/benchmarks/verl/src/llm_d_rl_verl_bench/epp_dev/wave_admission/admission.py:404-410 | The placement of every batch is within 4/3 - 1/(3m) if and only if the free budgets are equal |
| `Budgets.UnequalBudgetsMiss` | quickstart/benchmarks/verl/src/llm_d_rl_verl_bench/epp_dev/wave_admission/admission.py:404-410 | For any two budgets that differ, one small job for each replica is a batch on which some replica takes two |
| `Budgets.GapOfTenMisses` | quickstart/benchmarks/verl/src/llm_d_rl_verl_bench/epp_dev/wave_admission/admission.py:404-410 | Free budgets 10 and 0 and two jobs of 4: one replica carries 8 where 4 is possible |
| `LedgerLpt.WokenSessionsFollowThePlan` | quickstart/benchmarks/verl/src/llm_d_rl_verl_bench/epp_dev/wave_admission/admission.py:384-426 | In every run a session that wakes after the batch was planned is in the plan and is booked where the plan put it |
| `LedgerLpt.CloseWindowPlans` | quickstart/benchmarks/verl/src/llm_d_rl_verl_bench/epp_dev/wave_admission/admission.py:402-412 | Closing the window plans every waiting session once, on the replica its place in the sorted batch was given |
| `LedgerLpt.LongestFirstSorts` | quickstart/benchmarks/verl/src/llm_d_rl_verl_bench/epp_dev/wave_admission/admission.py:402 | The batch is a permutation of the arrivals with the longest work first |
| `LedgerLpt.TiesGoById` | quickstart/benchmarks/verl/src/llm_d_rl_verl_bench/epp_dev/wave_admission/admission.py:402 | Equal works go by request id, then by context |
| `Scheduling.LptBound` | quickstart/benchmarks/verl/src/llm_d_rl_verl_bench/epp_dev/wave_admission/admission.py:172-175 | Longest-first least-loaded placement is within 4/3 - 1/(3m) of every assignment, for any number of replicas and jobs |
| `Scheduling.ListSchedulingBound` | quickstart/benchmarks/verl/src/llm_d_rl_verl_bench/epp_dev/wave_admission/admission.py:172-175 | In any order least-loaded placement is within 2 - 1/m of every assignment |
| `Scheduling.LptBoundIsTight` | quickstart/benchmarks/verl/src/llm_d_rl_verl_bench/epp_dev/wave_admission/admission.py:172-175 | Two replicas and five jobs reach the 4/3 - 1/(3m) bound |
| `Scheduling.GreedyIsLeastLoaded` | quickstart/benchmarks/verl/src/llm_d_rl_verl_bench/epp_dev/wave_admission/admission.py:406-410 | From equal free budgets, the most-free choice with provisional charging is the least-loaded choice at every step |
| `Scheduling.ArgMaxIsFirst` | quickstart/benchmarks/verl/src/llm_d_rl_verl_bench/epp_dev/wave_admission/admission.py:243-244 | Of the replicas with the most free budget the first in the list is taken |
| `Estimates.EstimateIsExpected` | quickstart/benchmarks/verl/src/llm_d_rl_verl_bench/epp_dev/wave_admission/admission.py:75-85 | The estimate for a turn is (w*guess + sum)/(w + n) over the growths of the turns alike to it, plus z times the root of their sum of squared deviations over n - 1, or of zero below two |
| `Estimates.SameKeyExactlyWhenAlike` | quickstart/benchmarks/verl/src/llm_d_rl_verl_bench/epp_dev/wave_admission/admission.py:59-73 | Two turns share a key if and only if, by the mode, their indices are equal, their sizes lie between the same powers of two, or both |
| `Growth.OnlineEqualsBatch` | quickstart/benchmarks/verl/src/llm_d_rl_verl_bench/epp_dev/wave_admission/admission.py:75-98 | After any observations the running mean is (w*guess + sum)/(w + n), the second mean is sum/n and m2 is the sum of squared deviations from it, which is not negative |
| `Growth.OrderIndependent` | quickstart/benchmarks/verl/src/llm_d_rl_verl_bench/epp_dev/wave_admission/admission.py:87-98 | The same observations in any order leave the same tables, so every later estimate agrees |
| `Growth.EstimateNonNegative` | quickstart/benchmarks/verl/src/llm_d_rl_verl_bench/epp_dev/wave_admission/admission.py:75-85 | With non-negative guess, weight, margin and growths no estimate is negative |
| `Growth.BucketRange` | quickstart/benchmarks/verl/src/llm_d_rl_verl_bench/epp_dev/wave_admission/admission.py:61-65 | The size bucket is the exponent of the power of two at or below the size, sizes under 1 counting as 1 |
| `Growth.GrowthEstimator.ObserveGrowth` | quickstart/benchmarks/verl/src/llm_d_rl_verl_bench/epp_dev/wave_admission/admission.py:87-98 | One observation updates the five dictionaries as one step of the online statistics |
| `Admission.AdmissionLedger.constructor` | quickstart/benchmarks/verl/src/llm_d_rl_verl_bench/epp_dev/wave_admission/admission.py:110-209 | A new ledger is the initial state of every run |
| `Replay.Drive` | quickstart/benchmarks/verl/src/llm_d_rl_verl_bench/epp_dev/wave_admission/llm_client.py:78-146 | A new ledger object driven through any sequence of events by its methods ends in the state of that run, so every result about runs is one about the object |
| `Replay.Perform` | quickstart/benchmarks/verl/src/llm_d_rl_verl_bench/epp_dev/wave_admission/admission.py:264-522 | Each event is one method call on the object, with the answer and the state of the run's segment |
| `Admission.AdmissionLedger.Reserve` | quickstart/benchmarks/verl/src/llm_d_rl_verl_bench/epp_dev/wave_admission/admission.py:233-238 | The loop over residents adds up the charges of the replica's residents |
| `Admission.AdmissionLedger.MostFree` | quickstart/benchmarks/verl/src/llm_d_rl_verl_bench/epp_dev/wave_admission/admission.py:243-244 | The scan picks the first replica with the most estimated free budget |
| `Admission.AdmissionLedger.Book` | quickstart/benchmarks/verl/src/llm_d_rl_verl_bench/epp_dev/wave_admission/admission.py:246-256 | A booking is the ledger's booking step on the fields: only the growth when the previous turn sits on the same replica |
| `Admission.AdmissionLedger.ReleaseBooking` | quickstart/benchmarks/verl/src/llm_d_rl_verl_bench/epp_dev/wave_admission/admission.py:258-262 | A release takes the turn's size off the replica, not below zero |
| `Admission.AdmissionLedger.AcquireFirst` | quickstart/benchmarks/verl/src/llm_d_rl_verl_bench/epp_dev/wave_admission/admission.py:280-321 | Turn 0 up to its first await is the arrival segment of a run, with the same answer and the same new state |
| `Admission.AdmissionLedger.AcquireLater` | quickstart/benchmarks/verl/src/llm_d_rl_verl_bench/epp_dev/wave_admission/admission.py:280-283 | A later turn is the continuation segment of a run |
| `Admission.AdmissionLedger.StaggerPlace` | quickstart/benchmarks/verl/src/llm_d_rl_verl_bench/epp_dev/wave_admission/admission.py:331-353 | The first member of a group leads and is booked at once; later ones wait while the leader's turn is open |
| `Admission.AdmissionLedger.FollowLeader` | quickstart/benchmarks/verl/src/llm_d_rl_verl_bench/epp_dev/wave_admission/admission.py:355-368 | A follower goes to the emptiest other replica and pulls from its leader, or falls back to ordinary placement |
| `Admission.AdmissionLedger.PlaceOrdinary` | quickstart/benchmarks/verl/src/llm_d_rl_verl_bench/epp_dev/wave_admission/admission.py:290-321 | The window or the wave-1 count decides how a request without a group is placed |
| `Admission.AdmissionLedger.PollRound` | quickstart/benchmarks/verl/src/llm_d_rl_verl_bench/epp_dev/wave_admission/admission.py:299-321 | One round of the polling loop, and the forced admission after the deadline |
| `Admission.AdmissionLedger.EnterWindow` | quickstart/benchmarks/verl/src/llm_d_rl_verl_bench/epp_dev/wave_admission/admission.py:392-401 | Joining the window, or plain placement once it is closed |
| `Admission.AdmissionLedger.CloseWindow` | quickstart/benchmarks/verl/src/llm_d_rl_verl_bench/epp_dev/wave_admission/admission.py:402-426 | The window's first session sorts and plans the batch, then takes its own result |
| `Admission.AdmissionLedger.PlanBatch` | quickstart/benchmarks/verl/src/llm_d_rl_verl_bench/epp_dev/wave_admission/admission.py:404-410 | The batch loop with provisional charges computes the greedy placement of the sorted works |
| `Admission.AdmissionLedger.TakeResult` | quickstart/benchmarks/verl/src/llm_d_rl_verl_bench/epp_dev/wave_admission/admission.py:426 | A woken session takes its planned replica out of the plan, or the emptiest one when it has none |
| `Admission.AdmissionLedger.GiveUpOnBatch` | quickstart/benchmarks/verl/src/llm_d_rl_verl_bench/epp_dev/wave_admission/admission.py:420-425 | A session that waited too long is placed on the emptiest replica |
| `Admission.AdmissionLedger.ContinueOrMigrate` | quickstart/benchmarks/verl/src/llm_d_rl_verl_bench/epp_dev/wave_admission/admission.py:428-493 | Rebalance, stay in place, migrate for room, or stay and overshoot, in that order |
| `Admission.AdmissionLedger.RecordTurn` | quickstart/benchmarks/verl/src/llm_d_rl_verl_bench/epp_dev/wave_admission/admission.py:495-509 | A recording adjusts the books to the measured size, and a leader's own turn 0 releases its group |
| `Admission.AdmissionLedger.OnTrajectoryDone` | quickstart/benchmarks/verl/src/llm_d_rl_verl_bench/epp_dev/wave_admission/admission.py:511-522 | A completion leaves the books, feeds the estimator turn by turn and takes the newest size off the replica |
| `EppLayers.LastLayerWins` | integrations/common/src/llm_d_rl_common/epp_config.py:115-120 | A rendered variant says at every path, through map keys and item identities, what its last layer to mention that path says |
| `EppConfig.NameComesFirst` | integrations/common/src/llm_d_rl_common/epp_config.py:45-55 | A name identifies an item whatever else it has, a plugin reference one without a name, and nothing else does |
| `EppConfig.SameNameExactlyWhen` | integrations/common/src/llm_d_rl_common/epp_config.py:45-55 | Scalar names are one identity if and only if they print the same |
| `EppConfig.MergeIsOverride` | integrations/common/src/llm_d_rl_common/epp_config.py:58-82 | A merge of any document with a well-formed one says at every path what the later document says there, else what the earlier one says, if and only if the later one never puts another kind in place of a non-empty map or keyed list |
| `EppRepeats.MergeAlongPaths` | integrations/common/src/llm_d_rl_common/epp_config.py:58-82 | For any document and any layer with scalar identities, also where either repeats them: at every path a merge says what the documents say there, each step taking in what the layer has for it one after the other, and a change of kind starting afresh |
| `EppRepeats.RunsAlongPaths` | integrations/common/src/llm_d_rl_common/epp_config.py:58-120 | The same for any number of layers in a row |
| `EppConfig.SlotsKeepIds` | integrations/common/src/llm_d_rl_common/epp_config.py:66-80 | The keyed-list loop keeps each identity in its slot: base order first, new identities appended in their order, whatever the base repeats |
| `EppConfig.ListsMerge` | integrations/common/src/llm_d_rl_common/epp_config.py:66-80 | Merging a keyed list into any other merges the items of each identity and nothing else |
| `EppConfig.MergeLists` | integrations/common/src/llm_d_rl_common/epp_config.py:69-80 | The loop with its index dictionary computes the merge: the index points at the last slot of every identity throughout |
| `EppConfig.MergeEntries` | integrations/common/src/llm_d_rl_common/epp_config.py:60-64 | The loop over a layer's keys computes the merged map |
| `EppConfig.MergeDocs` | integrations/common/src/llm_d_rl_common/epp_config.py:58-82 | The recursive dispatch computes the merge of any two documents |
| `EppLayers.AssociatesExactlyWhen` | integrations/common/src/llm_d_rl_common/epp_config.py:58-82 | For any base and two well-formed layers, the two bracketings agree if and only if nothing is put back: no children that the first layer replaces by another kind return with the second one saying less than they did |
| `EppLayers.MergeAssociates` | integrations/common/src/llm_d_rl_common/epp_config.py:58-82 | So merging associates whenever the first layer overlays the base, whatever comes after it |
| `EppLayers.LayersPrecompose` | integrations/common/src/llm_d_rl_common/epp_config.py:115-120 | A run of consecutive layers that puts nothing back may be composed on its own before the fold |
| `EppLayers.OneMorePrecomposes` | integrations/common/src/llm_d_rl_common/epp_config.py:115-120 | A run of layers that may be composed on its own still may with one more layer if and only if that layer puts nothing back |
| `EppLayers.LayeredPrecomposes` | integrations/common/src/llm_d_rl_common/epp_config.py:115-120 | Layers that only overlay each other may be grouped in any way |
| `EppLayers.MergeIdempotent` | integrations/common/src/llm_d_rl_common/epp_config.py:58-82 | Applying a layer with distinct identities again changes nothing, for any base |
| `EppIdempotence.IdempotentExactlyWhen` | integrations/common/src/llm_d_rl_common/epp_config.py:58-82 | Applying a layer again changes nothing for every base if and only if the layer is absorbed: followed down each path, the values it gives there end in an atom, change kind, or merge once more onto themselves without change |
| `EppIdempotence.DistinctLayersAreAbsorbed` | integrations/common/src/llm_d_rl_common/epp_config.py:58-82 | A layer with distinct identities throughout is absorbed |
| `EppIdempotence.SelfMergeIsNotEnough` | integrations/common/src/llm_d_rl_common/epp_config.py:66-80 | A layer that merges onto itself unchanged and still changes some base when applied twice |
| `EppLayers.EmptyMapIsUnit` | integrations/common/src/llm_d_rl_common/epp_config.py:115-120 | The empty map is a left unit for every document and a right unit for exactly the maps |
| `EppLayers.MergeIsWellFormed` | integrations/common/src/llm_d_rl_common/epp_config.py:58-82 | Merging keeps identities distinct throughout the document |
| `EppLayers.WellFormedIsDistinct` | integrations/common/src/llm_d_rl_common/epp_config.py:66-80 | Well-formed means that every keyed list of the document, at any depth, has distinct identities |
| `EppLayers.RenderLayers` | integrations/common/src/llm_d_rl_common/epp_config.py:115-120 | The render loop computes the fold of its layers |
| `EppLayers.EmptyListBreaksAssociativity` | integrations/common/src/llm_d_rl_common/epp_config.py:66-80 | An empty list between two keyed lists makes the two bracketings differ |
| `EppLayers.ScalarOverMapBreaksAssociativity` | integrations/common/src/llm_d_rl_common/epp_config.py:82 | A scalar between two maps makes the two bracketings differ |
| `EppLayers.SharedIdentityBreaksIdempotence` | integrations/common/src/llm_d_rl_common/epp_config.py:66-80 | Two items of one identity make a second application of a layer change the result |
| `Protobuf.VarintRoundTrip` | integrations/common/src/llm_d_rl_common/epp_grpc_client.py:28-34 | Decoding a varint undoes encoding for every natural number, whatever bytes follow |
| `Protobuf.VarintBytes` | integrations/common/src/llm_d_rl_common/epp_grpc_client.py:28-34 | Byte i of a varint holds bits 7i to 7i + 6 and a continuation bit on all but the last, which is the one that holds the top bits |
| `Protobuf.DocumentedBytes` | integrations/common/src/llm_d_rl_common/epp_grpc_client.py:28-43 | 150, 300, a string field and a false flag are the bytes that the Encoding document gives |
| `Protobuf.EncodeVarint` | integrations/common/src/llm_d_rl_common/epp_grpc_client.py:28-34 | The encoder loop emits seven bits a byte, least significant first |
| `Protobuf.DecodeVarint` | integrations/common/src/llm_d_rl_common/epp_grpc_client.py:80-87 | The decoder loop reads the varint at a position and stops behind it, and fails exactly when the bytes run out |
| `Protobuf.DecodingAppends` | integrations/common/src/llm_d_rl_common/epp_grpc_client.py:90-109 | Decoding whole records followed by anything appends the later fields to the earlier ones, also across numbers and fixed-width fields that are skipped |
| `Protobuf.EncodedDecodes` | integrations/common/src/llm_d_rl_common/epp_grpc_client.py:37-109 | Decoding undoes encoding for every list of records of the four wire types |
| `Protobuf.EndsOfMessages` | integrations/common/src/llm_d_rl_common/epp_grpc_client.py:90-109 | Whole records followed by another wire type end there whatever follows, by a payload or a fixed-width field cut short keep what there is, and by a varint cut short are an error |
| `Protobuf.DecodeDict` | integrations/common/src/llm_d_rl_common/epp_grpc_client.py:90-109 | The decoder loop ends on every input, fails exactly when a varint is cut short, and groups the payloads of each field number in order |
| `Headers.WrappedHeadersExtract` | integrations/common/src/llm_d_rl_common/epp_grpc_client.py:112-126 | A response that carries any header list along fields 1/1/2/1/1 gives back exactly the last value of each non-empty key |
| `Headers.TreeExtracts` | integrations/common/src/llm_d_rl_common/epp_grpc_client.py:112-126 | The same for any number of submessages at every level with other records between them, along any path |
| `Headers.RequestReadsBack` | integrations/common/src/llm_d_rl_common/epp_grpc_client.py:46-56 | The headers of a request can be read back from its encoding, past the end-of-stream flag |
| `Headers.LastWriteWins` | integrations/common/src/llm_d_rl_common/epp_grpc_client.py:112-126 | The value kept for a key is that of its last header |
| `Headers.KeysOfHeaders` | integrations/common/src/llm_d_rl_common/epp_grpc_client.py:112-126 | The keys of the result are exactly the non-empty keys of the list |
| `Headers.ExtractHeaders` | integrations/common/src/llm_d_rl_common/epp_grpc_client.py:112-126 | The nested loops collect the header of every message reached along the path, and fail when any of them is malformed |
| `Headers.EncodeHeaderMap` | integrations/common/src/llm_d_rl_common/epp_grpc_client.py:46-51 | The encoder loop writes one entry for each header in order |
| `Headers.HeaderBytes` | integrations/common/src/llm_d_rl_common/epp_grpc_client.py:46-56 | The bytes of a header map and of request headers with one header |
| `EnginePool.EnginePool.AddEngine` | legacy/rl-controller/pkg/pool/engine_pool.go:116-129 | Adding an engine, also under a known id, starts from a fresh state and closes the transfer gate; no other member changes |
| `EnginePool.EnginePool.RemoveEngine` | legacy/rl-controller/pkg/pool/engine_pool.go:132-141 | Removing an engine drops exactly that member and closes the gate |
| `EnginePool.EnginePool.EndCheck` | legacy/rl-controller/pkg/pool/engine_pool.go:197-233 | A check that ends changes only the engine object it was started on, so one in flight for a replaced engine never affects its replacement; every member stays ready exactly when one of its last three results is a success |
| `EnginePool.EngineState.Report` | legacy/rl-controller/pkg/pool/engine_pool.go:216-229 | The unhealthy callback is started exactly at the third failure in a row after a success |
| `Health.HealthIsDebounced` | legacy/rl-controller/pkg/pool/engine_pool.go:216-229 | Over every history of results: ready means a success among the last three, and the counter is the number of failures since the last success |
| `Health.AlarmsOncePerOutage` | legacy/rl-controller/pkg/pool/engine_pool.go:216-229 | The callback fires at a check if and only if that check turns a ready engine unready, which is the third failure in a row after a success |
| `Health.RecoversBetweenAlarms` | legacy/rl-controller/pkg/pool/engine_pool.go:216-229 | Between two callbacks of one engine it was ready again |
| `EnginePool.EnginePool.InitWeightTransfer` | legacy/rl-controller/pkg/pool/engine_pool.go:238-261 | Each engine that the call reaches takes the rank it was sent, the ranks sent being a bijection of the present members onto 1 to N; the gate opens when every engine answered, and a failed init leaves it as it was |
| `EnginePool.EnginePool.UpdateWeights` | legacy/rl-controller/pkg/pool/engine_pool.go:264-314 | The version becomes the target exactly when the gate was open and the whole update succeeded, and nothing else of the pool changes |
| `EnginePool.EnginePool.PauseAll` | legacy/rl-controller/pkg/pool/engine_pool.go:316-326 | Pausing everyone is the pause step of the runs, and reports no error exactly when all answered |
| `EnginePool.EnginePool.ResumeAll` | legacy/rl-controller/pkg/pool/engine_pool.go:328-338 | The same for resuming everyone |
| `WeightUpdate.SucceedsExactlyWhenAllAnswer` | legacy/rl-controller/pkg/pool/engine_pool.go:264-314 | An update succeeds if and only if no engine failed in any phase it runs |
| `WeightUpdate.SuccessServesTarget` | legacy/rl-controller/pkg/pool/engine_pool.go:264-314 | After a success every engine serves the target weights, with a cache of those weights when asked |
| `WeightUpdate.EnginePausedExactlyWhen` | legacy/rl-controller/pkg/pool/engine_pool.go:264-314 | From any fleet, a member is paused after an update if and only if it was paused before or by the update and the update did not reach a resume that took effect on it |
| `WeightUpdate.PausedExactlyWhen` | legacy/rl-controller/pkg/pool/engine_pool.go:264-314 | From any fleet, exactly which updates leave an engine paused: a pause phase that fails with someone paused, a failed load whose rollback misses someone, any failed cache reset, and a resume that misses someone |
| `WeightUpdate.FailedPauseLeavesPaused` | legacy/rl-controller/pkg/pool/engine_pool.go:279-284 | Of two serving engines one fails to pause: the other is left paused |
| `WeightUpdate.FailedResetLeavesPaused` | legacy/rl-controller/pkg/pool/engine_pool.go:296-303 | Of two serving engines one fails its cache reset: both hold the target weights and both are left paused |
| `WeightRuns.AllCurrentExactlyWhen` | legacy/rl-controller/pkg/pool/engine_pool.go:116-314 | Over every run of additions, removals, initializations and updates: all members hold the reported version if and only if no member was last written by an addition with other weights or by an update that failed after its load reached the engine with another target |
| `WeightRuns.StaleExactlyWhen` | legacy/rl-controller/pkg/pool/engine_pool.go:116-314 | The same for each member: it holds other weights than the reported version exactly when its last write strayed, however long ago, and every success since would have corrected it |
| `WeightRuns.AddedEngineIsStale` | legacy/rl-controller/pkg/pool/engine_pool.go:116-129 | An engine added with other weights than the pool reports is such a run |
| `WeightRuns.FailedResetIsStale` | legacy/rl-controller/pkg/pool/engine_pool.go:264-314 | Another: one engine, initialized, loads version 7 and fails its cache reset; the pool still reports 0 |
| `WeightRuns.PausedExactlyWhen` | legacy/rl-controller/pkg/pool/engine_pool.go:264-338 | Over every run with pauses and resumes of everyone: a member is paused if and only if its last pause took effect and no resume did since |
| `WeightRuns.GateOpenExactlyWhen` | legacy/rl-controller/pkg/pool/engine_pool.go:116-270 | The transfer gate is open if and only if an initialization that every member answered has not been followed by an addition or a removal; the group then still has the members it was made for |
| `WeightRuns.HeldRanksExactlyWhen` | legacy/rl-controller/pkg/pool/engine_pool.go:238-261 | Over every run with an open gate: the members hold the ranks 1 to N, one each, if and only if no two of them got the same rank from the last initialization that reached them |
| `WeightRuns.FailedInitCollides` | legacy/rl-controller/pkg/pool/engine_pool.go:238-261 | Two engines, ranked, then ranked the other way round with only one answering: the gate stays open and both hold rank 2 |
| `WeightUpdate.RollbackResumesAll` | legacy/rl-controller/pkg/pool/engine_pool.go:286-294 | After a failed load whose rollback every engine answered, no engine is paused |
| `WeightUpdate.FailureMixesAtMostTwoVersions` | legacy/rl-controller/pkg/pool/engine_pool.go:264-314 | Whatever fails, an engine holds its old weights or the target, and engines outside the pool are untouched |
| `EnginePool.EnginePool.FanOut` | legacy/rl-controller/pkg/pool/engine_pool.go:376-395 | A fan-out applies the command to each client once and reports no error exactly when all answered |
| `PodWatcher.RegisteredAreReady` | legacy/rl-controller/pkg/discovery/pod_watcher.go:137-179 | Over every sequence of pod events the registered pods are exactly those whose latest event was ready with an IP, at that address |
| `PodWatcher.ServesExactlyWhen` | legacy/rl-controller/pkg/discovery/pod_watcher.go:137-141 | An event leaves its pod serving if and only if it shows the pod ready with an IP |
| `PodWatcher.ServedAddressSplits` | legacy/rl-controller/pkg/discovery/pod_watcher.go:147 | The address is the IP behind http:// with the pool's port, and splits into the two |
| `PodWatcher.CallbacksTellAll` | legacy/rl-controller/pkg/discovery/pod_watcher.go:137-179 | A listener that hears the callbacks knows exactly the registered map |
| `PodWatcher.CallbacksAlternate` | legacy/rl-controller/pkg/discovery/pod_watcher.go:137-179 | For each pod the callbacks alternate: between two of a kind there is one of the other |
| `PodWatcher.PodWatcher.Sync` | legacy/rl-controller/pkg/discovery/pod_watcher.go:137-166 | After every added or updated pod the pool's id-to-address map equals the registered map; an event that changes nothing keeps the transfer gate and any other closes it |
| `PodWatcher.PodWatcher.MarkGone` | legacy/rl-controller/pkg/discovery/pod_watcher.go:169-179 | The same for a deleted pod |
| `PodWatcher.IsPodReady` | legacy/rl-controller/pkg/discovery/pod_watcher.go:182-189 | Ready means that the first Ready condition has status True |
| `Prompts.NestedPromptIds` | quickstart/benchmarks/verl/src/llm_d_rl_verl_bench/trace_player/trace.py:90-98 | The loop gives at each position the id of the state after that many steps, and at least one id |
| `Prompts.IdsAreHighBits` | quickstart/benchmarks/verl/src/llm_d_rl_verl_bench/trace_player/trace.py:93-97 | Each id is the upper 31 bits of its state, less the spans that bring them into the range |
| `Prompts.FirstIds` | quickstart/benchmarks/verl/src/llm_d_rl_verl_bench/trace_player/trace.py:92-97 | The first three ids of seeds 0 and 1 over the default range |
| `Prompts.PromptsNest` | quickstart/benchmarks/verl/src/llm_d_rl_verl_bench/trace_player/trace.py:76-98 | A shorter prompt of a conversation is a prefix of every longer one |
| `Prompts.IdsInRange` | quickstart/benchmarks/verl/src/llm_d_rl_verl_bench/trace_player/trace.py:93-97 | Ids lie in the vocabulary range exactly when it is not reversed |
| `Prompts.StepIsPermutation` | quickstart/benchmarks/verl/src/llm_d_rl_verl_bench/trace_player/trace.py:96 | Every 64-bit state has exactly one predecessor |
| `Prompts.SeedsStayDistinct` | quickstart/benchmarks/verl/src/llm_d_rl_verl_bench/trace_player/trace.py:92-96 | Two conversations reach the same state at a position if and only if their seeds are equal, seeds 0 and 1 counting as one |
| `Prompts.FullPeriod` | quickstart/benchmarks/verl/src/llm_d_rl_verl_bench/trace_player/trace.py:96 | Two positions of a conversation have the same state if and only if they are a multiple of 2^64 apart |
| `Gae.ComputeGae` | legacy/rl-controller/examples/verl/ppo_training_loop.py:438-461 | The backward loop yields for every step the sum of the later errors discounted by gamma*lam for each step, and fails exactly when there are fewer values than rewards |
| `Gae.AdvantagesRecur` | legacy/rl-controller/examples/verl/ppo_training_loop.py:438-461 | Each advantage is the error of its step plus gamma*lam times the next advantage, and none is left past the last reward |
| `Gae.UndampedAdvantage` | legacy/rl-controller/examples/verl/ppo_training_loop.py:438-461 | With lam = 1 the advantage telescopes to the discounted return, plus the bootstrap value past the last reward if there is one, minus the value of the step |
| `Shim.RegistrationShim.Register` | integrations/common/src/llm_d_rl_common/registration_shim.py:76-86 | A known URL answers with its key and changes nothing; a new one is registered in order, and fails after registering when some URL is malformed |
| `Shim.RegistrationShim.Deregister` | integrations/common/src/llm_d_rl_common/registration_shim.py:88-101 | Exactly the worker that the normalized reference names is removed |
| `Shim.RegistrationShim.WriteEndpoints` | integrations/common/src/llm_d_rl_common/registration_shim.py:68-74 | The file is replaced exactly when every registered URL is well formed |
| `Shim.RegisteredExactlyWhen` | integrations/common/src/llm_d_rl_common/registration_shim.py:65-101 | Over every sequence of calls in URL-keyed mode, a URL is registered if and only if some call registered it and no deregistration has named it since, in full or by its single-slash form |
| `Shim.WorkersWereAdded` | integrations/common/src/llm_d_rl_common/registration_shim.py:76-86 | Every registered worker has the URL and the kind of the call that registered it, under that URL or under the key it was given |
| `Shim.FileIsLastGood` | integrations/common/src/llm_d_rl_common/registration_shim.py:65-101 | Over every sequence of calls the file lists the registry as it stood when every registered URL was well formed for the last time |
| `Shim.FileAgreesExactlyWhen` | integrations/common/src/llm_d_rl_common/registration_shim.py:65-101 | So after any calls the file lists exactly the registered URLs if and only if every one of them is well formed |
| `Shim.RegisteredUrlIsListed` | integrations/common/src/llm_d_rl_common/registration_shim.py:68-86 | After any calls, registering scheme://host:port or scheme://[host]:port with every URL well formed leaves an entry of exactly that host and port |
| `Shim.DepartedWorkerStaysListed` | integrations/common/src/llm_d_rl_common/registration_shim.py:68-101 | A good worker, a malformed one, and the good one deregistered: the file still lists the departed worker |
| `Shim.SingleSlashUndoes` | integrations/common/src/llm_d_rl_common/registration_shim.py:88-101 | In URL-keyed mode, for both schemes and with any calls about other workers in between, deregistering by the single-slash form leaves the registry as if the worker had never been registered |
| `Shim.NormalizeRestores` | integrations/common/src/llm_d_rl_common/registration_shim.py:90-96 | The single-slash form of a URL is restored if and only if no further slash follows the scheme; a full URL is left alone |
| `Endpoints.SplitIsExact` | integrations/common/src/llm_d_rl_common/endpoints.py:22-36 | An address that splits is its parts put together again, and it fails to split in exactly the documented cases |
| `Endpoints.UrlSplits` | integrations/common/src/llm_d_rl_common/endpoints.py:22-36 | A URL with a plain host splits into that host and port |
| `Endpoints.BracketedUrlSplits` | integrations/common/src/llm_d_rl_common/endpoints.py:22-36 | A URL with a bracketed host splits into the host between the brackets and the port |
| `Endpoints.RolloutEndpoints` | integrations/common/src/llm_d_rl_common/endpoints.py:74-93 | The loop writes one ranked entry for each address in order, and fails exactly when one is malformed |
| `Endpoints.EntryReads` | integrations/common/src/llm_d_rl_common/endpoints.py:74-93 | Entry i of a file that lists addresses has rank i, the name <engine>-replica-<i>, and an address and port that put together are the address behind its scheme |
| `Endpoints.UrlEntryReads` | integrations/common/src/llm_d_rl_common/endpoints.py:74-93 | The entry of a URL with a plain or a bracketed host has that host and that port |

## Left out

- Floating-point rounding: sizes, budgets and statistics are reals; the square root of the variance is a function parameter that is only required to be non-negative on non-negative values, and the size bucket is the exact floor of the base-2 logarithm.
- Clocks and the event loop: whether a deadline has passed and which wait ends next are choices of the run; every order is allowed, so fairness and waking times are not modelled.
- Request ids are naturals ordered as the sort of the LPT batch orders strings; replica addresses and group keys are only compared, and an empty group key counts as none.
- LedgerPulls.RaisesExactlyWhen: a call that raises keeps its booking and the run lets the request go on; one repetition of the call is followed after any run, but repeated calls are not events of the runs.
- Counters, statistics, log lines, environment parsing and the budget computation of the ledger module: they do not feed back into placement.
- LedgerBudget.PlainRunsStayWithinBudget: a turn that arrives after its request completed is excluded, because the ledger then places it without any check of room.
- Key order inside maps of a config document: documents are compared as maps; only list order is kept.
- Identities given by composite values: they are compared as documents, not by the text they print to.
- EppConfig.MergeIsOverride: the later document has distinct identities in each keyed list; a path through a repeated identity has no single value there, and `EppRepeats.MergeAlongPaths` says what the merge holds.
- EppConfig.ListsMerge: the later list has distinct identities, for the same reason.
- EppConfig.SlotsKeepIds: a composite identity of the later list must stay as it is when merged onto itself, as every scalar one does; otherwise a merge can change the identity of its own slot.
- EppLayers.AssociatesExactlyWhen: the two layers have distinct identities in each keyed list; the base may repeat them.
- EppIdempotence.IdempotentExactlyWhen: identities are scalars, since merging two items can change a composite identity.
- Engines that restart on their own: an engine changes weights only by a command or by being added anew.
- Reading files, choosing the layers of a variant, rejecting empty documents and printing YAML.
- Text decoding of header keys and values: they stay byte strings, so keys that differ only in undecodable bytes stay apart.
- Negative arguments of the varint encoder: no caller passes one.
- Prompts.SeedsStayDistinct: seeds are arbitrary 64-bit numbers; the digest that makes them from conversation ids is not modelled.
- Engine clients: a call is its answer and its effect, chosen freely except that an answer without an error took effect; pause modes, sleep and wake-up calls and the transfer parameters other than the rank are not modelled.
- EnginePool.EnginePool.FanOut: concurrent calls are made one after another in list order; each touches its own engine only, so no order changes the result.
- Static engine lists, informer plumbing, HTTP handlers and the rollout server with its own copy of the version.
- Picking an engine for generation, and phases and status snapshots of the pool.
- Fresh worker keys are a parameter of the registration; a key that is already taken overwrites that worker in place, as the dictionary does.
- The file rename, the model label and the prefill/decode variant of the endpoints file.
