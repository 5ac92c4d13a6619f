# A verified model of Balthazar

Balthazar schedules paid computation tasks over a peer-to-peer network. A user uploads a job to an
escrow contract and locks its price; managers agree on which workers run its tasks; an oracle reports
the outcome to the contract, which pays. This project models the parts of it that hold state, as Dafny
programs and functions, and proves what they keep over all inputs and all runs.
`dafny verify dfyconfig.toml` checks everything.

## How it is laid out

| files | what they model |
|---|---|
| `Escrow`, `EscrowSafety`, `EscrowMoney`, `EscrowRuns`, `EscrowSolvency`, `EscrowPayouts`, `EscrowHistory`, `EscrowStuck`, `EscrowEvents`, `EscrowDrafts` | the Jobs contract as a transition system over values, and its laws |
| `JobsContract` | the contract as an object whose storage is updated in place; each method is proved to do what the transition system says |
| `SharedState`, `Oracle`, `OracleChanges`, `OracleChain`, `OracleSafety`, `OracleEffects`, `OracleRuns`, `OraclePayments`, `OracleExamples` | the state shared by managers: proposals, state changes, their order, the calls to the contract, and concrete runs |
| `OracleNode` | the oracle node as an object over task records and the contract object |
| `Workers`, `Scheduler`, `SlotMirror` | the slots of a manager's workers, the offers it proposes, and how the slots follow the shared state |
| `Substreams`, `Handler`, `HandlerRuns`, `HandlerMessages` | the handler of one connection, its substreams, runs of it, and what it writes |
| `Relationship`, `Behaviour`, `RelationshipRuns`, `RelationshipExchanges`, `RelationshipMessages`, `RelationshipArrivals`, `RelationshipExamples` | the worker/manager relationship: one node, its event queue, its locks, its announcements and messages, exchanges of two nodes, and concrete runs |
| `Client`, `ClientLaws` | jobs built by setters, uploaded, read back and locked |
| `ProofOfWork` | the proof-of-work program |

State that the program updates in place is a class, and each of its methods is tied to a function on
values; the laws are lemmas about these functions. Arithmetic wraps where the program's does: prices
at 64 bits, balances at 256 bits, nonces at 128 bits, `usize` of the WebAssembly program at 32 bits.

## What was found

* `push_manager` bounds the managers of a task by `4 + timeout - min_checking_interval`
  (balthachain/contracts/contracts/Jobs.sol:450), which wraps when the interval exceeds the timeout, as
  it does in a default draft. The price provides for `(redundancy + max_failures) * (4 + timeout /
  interval)`. `MoneyFromNothing` is a run in which the accounts end up above the ether held;
  `StepSolventIff` says exactly when that cannot happen.
* The same bound is 0 when `timeout + 4 == min_checking_interval`, as with 11 and 15, which the contract
  accepts. Both ways of ending a task need a manager, so no task of such a job can ever end and its
  price is owed for ever: `EndableIff` says exactly which tasks some run can end, `NeverEnds` that these
  never do.
* `manager_request` refuses a peer it does not know as a worker while it still holds the write guard of
  the peer's record, which it reads again to name its type (balthernet/src/balthazar/events.rs:388-406):
  the manager waits for itself for ever, or panics. `manager_answer` pings a manager it already has while
  it still holds a read guard of the record that sending the ping writes (events.rs:445-471 and
  balthernet/src/balthazar/mod.rs:191-192). `TurnStopsIff` shows that these are the only two cases,
  `EarlyRequestStops` and `WrongAnswerStops` are runs that meet them.
* `not_mine` (balthernet/src/balthazar/events.rs:362-375) returns its announcement at once while all
  others are queued. If one about the same worker is still queued, the program hears them in the wrong
  order; `TurnConsistent` shows that this is the only way announcements and workers part. If the slot
  table does not list the worker at that moment, `delete_worker` panics (`TurnPanicsIff`,
  `OvertakingHappens`); if it does, the row goes and the announcement that was overtaken may bring it
  back although the node has no such worker any more.
* A completion proposal with a free replica or an empty result, or too many managers at the end of a
  task, passes the handlers and then stops the oracle, as does an accepted offer list that names a
  worker twice. `ProposeOutcome` shows that these are all the cases; `FreeReplicaStops`,
  `EmptyResultStops`, `TooManyManagersStops` and `RepeatedWorkerStops` are runs that meet them;
  `ScheduledOutcome` shows that the managers' own scheduler never causes the last.
* A manager frees the slots of a worker as soon as it hears that the worker lost a task, and panics on a
  status for a slot already freed (balthalib/src/node/mod.rs:333-337): a worker that reports after its
  task failed or was taken from it stops its manager (`LateStatusPanics`; `LateStatusHappens` is a run).
* Once a task has failed as often as its job allows, and so from the start in a job that allows no failure,
  as a default draft, one worker that aborts or a manager that does not answer releases all its workers
  (`AbortExactly`, `FailureEffect`; balthalib/src/node/shared_state.rs:468-478).
* The oracle hears of every assignment and aborts those of workers it does not manage itself
  (balthalib/src/node/mod.rs:473-479): such a worker loses the task at once (`ForeignAborted`).
* The refund of a failed task is the one change of a balance the contract does not announce
  (Jobs.sol:464-470; `RunSays`).
* A failure count of 2^64 - 1 wraps to 0 with the next failure. `FinalAndMonotone` says exactly when;
  `CountWraps` is a run.
* The client computes the total price in 64 bits and the contract in 256
  (balthamisc/src/job.rs:460-462, Jobs.sol:109-111): they agree if and only if the total fits 64 bits. Of the balance it reads
  the low 128 bits only (`ChecksIff`).
* `test_result` accepts more than `my_run` prints: other outer bytes, a leading `+` or zeros, and
  anything after a second comma (`AcceptsIff`). Still, an accepted result exists only when a counter fits.

## Model

| member | source | states |
|---|---|---|
| `EscrowRuns.RunKeeps` | balthachain/contracts/contracts/Jobs.sol:256-260 | over every run of transactions: each account's locked money is, modulo 2^256, the sum over its locked jobs of the price of a task times the number of its incomplete tasks; all pending plus all locked money is congruent to the ether held; every task key is the id of its job and index; `JobCompleted` is in the log exactly once for a finished job and never for another |
| `EscrowRuns.StepKeeps` | balthachain/contracts/contracts/Jobs.sol:413-516 | that invariant is kept by every transaction, whoever sends it and whichever accounts coincide |
| `EscrowRuns.DeployedInv` | balthachain/contracts/contracts/Jobs.sol:92-95 | it holds of a new contract |
| `EscrowSafety.LockOwes` | balthachain/contracts/contracts/Jobs.sol:419-439 | locking makes the sender owe one price a task for each argument, and changes what nobody else owes |
| `EscrowSafety.CloseOwes` | balthachain/contracts/contracts/Jobs.sol:464-467 | ending a task lowers what its sender owes by exactly one price, and what anybody else owes by nothing |
| `EscrowSafety.LockTasksAdds` | balthachain/contracts/contracts/Jobs.sol:419-435 | the loop of `lock` adds exactly one incomplete task for each argument, under ids nobody used, and leaves all others alone |
| `EscrowMoney.CreditAllGives` | balthachain/contracts/contracts/Jobs.sol:497-504 | a list of payments gives each account the sum of its entries, once for each time it is listed, and touches nothing but pending money |
| `EscrowMoney.CreditAllTotal` | balthachain/contracts/contracts/Jobs.sol:152-155 | a list of payments raises the total of all accounts by its sum, modulo 2^256 |
| `EscrowMoney.RefundTotal` | balthachain/contracts/contracts/Jobs.sol:506-508 | unlocking the price and refunding the rest lowers the total by what was paid, modulo 2^256 |
| `EscrowMoney.RefundExactIff` | balthachain/contracts/contracts/Jobs.sol:506-508 | the refund is exact if and only if what was paid is within the price and the sender's own balance |
| `EscrowSolvency.StepSolventIff` | balthachain/contracts/contracts/Jobs.sol:446-516 | from a solvent state a successful transaction leaves the accounts adding up to the ether held, to the wei, if and only if its payments are within the price of the task and what the sender has by then |
| `EscrowSolvency.RunSolvent` | balthachain/contracts/contracts/Jobs.sol:147-158 | over every run of such transactions the accounts add up exactly, and locked money is exactly the price of the open tasks |
| `EscrowSolvency.WithdrawalsSucceed` | balthachain/contracts/contracts/Jobs.sol:219-227 | a solvent contract is never short of ether for a withdrawal within the balance |
| `EscrowSolvency.PriceWrapsOnce` | balthachain/contracts/contracts/Jobs.sol:100-107 | wrapping every intermediate product to 64 bits is wrapping the exact price formula once |
| `EscrowSolvency.PayoutWithinPrice` | balthachain/contracts/contracts/Jobs.sol:496-508 | with prices within the job's maxima, at most `(redundancy + max_failures) * (4 + timeout / interval)` managers and a formula that fits 64 bits, payments never exceed the price of the task |
| `EscrowSolvency.WithinMaximaCovers` | balthachain/contracts/contracts/Jobs.sol:505-508 | then ending a task is always covered, so the refund never underflows |
| `EscrowSolvency.DefaultDraftBounds` | balthachain/contracts/contracts/Jobs.sol:450-450 | with default parameters the bound on managers is `4 + 10 - 15`, which wraps to 2^64 - 1, while the price provides for 4 |
| `EscrowSolvency.UnpaidManagersExample` | balthachain/contracts/contracts/Jobs.sol:446-467 | from any solvent state, failing a default task with 15 managers passes every check and breaks solvency |
| `EscrowPayouts.CompletedGains` | balthachain/contracts/contracts/Jobs.sol:476-511 | a task reported completed: each account gains, modulo 2^256, `(worker_price * timeout + network_price * max_network_usage) % 2^64` for every entry that names it and one fee for each registration; the sender's locked money falls by one price and it gets the rest of the price besides |
| `EscrowPayouts.FailedGains` | balthachain/contracts/contracts/Jobs.sol:455-467 | a task reported failed: fees for the managers, the rest of the price for the sender, and nothing else |
| `EscrowPayouts.OthersMoveNothing` | balthachain/contracts/contracts/Jobs.sol:214-439 | no other transaction moves money of anybody but its sender, and of its sender only deposits, withdrawals and `lock` do |
| `EscrowHistory.RunFreezes` | balthachain/contracts/contracts/Jobs.sol:256-260 | over every run a locked job never changes, a finished task never changes, a task keeps its job and index, and the log only grows |
| `EscrowHistory.FinishedForever` | balthachain/contracts/contracts/Jobs.sol:161-171 | once `is_job_completed` holds it holds after every further run |
| `EscrowHistory.CompletedAtTheEnd` | balthachain/contracts/contracts/Jobs.sol:470-472 | a transaction logs `JobCompleted` exactly when it ends the last incomplete task of the job |
| `EscrowHistory.IsJobCompletedMeans` | balthachain/contracts/contracts/Jobs.sol:161-171 | the scan of `is_job_completed` on a locked job tells exactly whether the count of its incomplete tasks is 0 |
| `EscrowHistory.MoneyFromNothing` | balthachain/contracts/contracts/Jobs.sol:446-473 | a concrete run from deployment: 14 wei deposited, one default job locked, 15 registrations and one failure leave accounts that exceed the ether of the contract |
| `EscrowEvents.LockSays` | balthachain/contracts/contracts/Jobs.sol:419-440 | a successful `lock` logs one `TaskPending` for each task it makes, under its own id and in the order of the arguments, then the new balance; the tasks made are exactly those announced |
| `EscrowEvents.RunTells` | balthachain/contracts/contracts/Jobs.sol:434-516 | over every run `TaskPending` of an id is in the log once if the task exists and never otherwise; `TaskCompleted` with a result, or `TaskDefinetelyFailed` with a reason, is there once if that is how the task ended, and never otherwise |
| `EscrowEvents.EndsAsCalled` | balthachain/contracts/contracts/Jobs.sol:455-516 | ending a task stores the result or the reason of the call, logs it, and changes no other task |
| `EscrowEvents.StepSays` | balthachain/contracts/contracts/Jobs.sol:147-158 | whatever changes a balance announces it with the value it leaves, but for the refund of a failed task |
| `EscrowEvents.RunSays` | balthachain/contracts/contracts/Jobs.sol:464-467 | over every run the balance announced last is the balance, except for senders of jobs with a failed task |
| `EscrowEvents.RunJobs` | balthachain/contracts/contracts/Jobs.sol:232-255 | over every run each job is filed under its own sender and nonce and was announced under them |
| `EscrowDrafts.DraftTakesFirst` | balthachain/contracts/contracts/Jobs.sol:232-237 | a draft takes the first unused nonce from the sender's next one on, coming round after 2^128 - 1, and the one behind it is next; it is refused only when all are used |
| `EscrowDrafts.OnlyOwners` | balthachain/contracts/contracts/Jobs.sol:256-260 | a transaction of anybody but the owner leaves a job and its arguments as they are |
| `EscrowDrafts.OnlyOwnersRun` | balthachain/contracts/contracts/Jobs.sol:256-260 | so does a run of them |
| `EscrowDrafts.Rewritten` | balthachain/contracts/contracts/Jobs.sol:311-323 | a reset and any list of non-empty arguments make these the arguments of an own draft, and nothing else changes |
| `EscrowStuck.EndableIff` | balthachain/contracts/contracts/Jobs.sol:446-467 | from every consistent state some run ends an incomplete task if and only if it has a manager already or its job's timeout is not four seconds less than the checking interval |
| `EscrowStuck.RunStuck` | balthachain/contracts/contracts/Jobs.sol:446-453 | over every run a task with neither stays incomplete and without managers |
| `EscrowStuck.NeverEnds` | balthachain/contracts/contracts/Jobs.sol:446-516 | over every run from deployment a locked job with such parameters never loses an open task, its end is never logged, and its sender keeps owing the price of all its tasks |
| `JobsContract.Jobs.SendPendingMoney` | balthachain/contracts/contracts/Jobs.sol:214-217 | a deposit: the storage, log, ether and verdict are those of the transition system the laws above are about, a revert changing nothing |
| `JobsContract.Jobs.RecoverPendingMoney` | balthachain/contracts/contracts/Jobs.sol:219-227 | a withdrawal, refused above the balance, without ether or by the receiver: the storage, log, ether and verdict are those of the transition system the laws above are about, a revert changing nothing |
| `JobsContract.Jobs.CreateDraft` | balthachain/contracts/contracts/Jobs.sol:232-255 | the first free nonce of the sender, and the default draft under it: the storage, log, ether and verdict are those of the transition system the laws above are about, a revert changing nothing |
| `JobsContract.Jobs.SetParameters` | balthachain/contracts/contracts/Jobs.sol:276-289 | an edit of an own draft: the storage, log, ether and verdict are those of the transition system the laws above are about, a revert changing nothing |
| `JobsContract.Jobs.SetOtherData` | balthachain/contracts/contracts/Jobs.sol:297-302 | an edit of an own draft: the storage, log, ether and verdict are those of the transition system the laws above are about, a revert changing nothing |
| `JobsContract.Jobs.ResetArguments` | balthachain/contracts/contracts/Jobs.sol:311-316 | an edit of an own draft: the storage, log, ether and verdict are those of the transition system the laws above are about, a revert changing nothing |
| `JobsContract.Jobs.PushArgument` | balthachain/contracts/contracts/Jobs.sol:317-323 | one more non-empty argument: the storage, log, ether and verdict are those of the transition system the laws above are about, a revert changing nothing |
| `JobsContract.Jobs.SetWorkerParameters` | balthachain/contracts/contracts/Jobs.sol:341-354 | an edit of an own draft: the storage, log, ether and verdict are those of the transition system the laws above are about, a revert changing nothing |
| `JobsContract.Jobs.SetManagementParameters` | balthachain/contracts/contracts/Jobs.sol:370-381 | an edit of an own draft: the storage, log, ether and verdict are those of the transition system the laws above are about, a revert changing nothing |
| `JobsContract.Jobs.DeleteDraft` | balthachain/contracts/contracts/Jobs.sol:405-411 | an own draft disappears: the storage, log, ether and verdict are those of the transition system the laws above are about, a revert changing nothing |
| `JobsContract.Jobs.Lock` | balthachain/contracts/contracts/Jobs.sol:413-441 | all tasks created and the price moved, or nothing on a collision: the storage, log, ether and verdict are those of the transition system the laws above are about, a revert changing nothing |
| `JobsContract.Jobs.PushManager` | balthachain/contracts/contracts/Jobs.sol:446-453 | one more manager, within the wrapped bound: the storage, log, ether and verdict are those of the transition system the laws above are about, a revert changing nothing |
| `JobsContract.Jobs.SetDefinitelyFailed` | balthachain/contracts/contracts/Jobs.sol:455-473 | managers paid, the rest refunded: the storage, log, ether and verdict are those of the transition system the laws above are about, a revert changing nothing |
| `JobsContract.Jobs.SetCompleted` | balthachain/contracts/contracts/Jobs.sol:476-516 | workers and managers paid, the rest refunded: the storage, log, ether and verdict are those of the transition system the laws above are about, a revert changing nothing |
| `JobsContract.Jobs.IsJobCompleted` | balthachain/contracts/contracts/Jobs.sol:161-171 | the scan over the tasks of a job: the storage, log, ether and verdict are those of the transition system the laws above are about, a revert changing nothing |
| `JobsContract.Jobs.PayManagers` | balthachain/contracts/contracts/Jobs.sol:147-158 | one fee an entry, and the wrapped total: the storage, log, ether and verdict are those of the transition system the laws above are about, a revert changing nothing |
| `JobsContract.Jobs.CreateTasks` | balthachain/contracts/contracts/Jobs.sol:419-435 | one new task an argument, or a collision |
| `JobsContract.Jobs.EditDraft` | balthachain/contracts/contracts/Jobs.sol:256-260 | one write to an own draft, or a revert |
| `JobsContract.Jobs.PayWorkers` | balthachain/contracts/contracts/Jobs.sol:497-504 | each worker paid its cost, and the wrapped total |
| `JobsContract.Jobs.PayBoth` | balthachain/contracts/contracts/Jobs.sol:495-505 | workers, then managers, and the wrapped total |
| `JobsContract.Jobs.RefundSender` | balthachain/contracts/contracts/Jobs.sol:506-508 | one price unlocked, and what the payments left of it given back |
| `JobsContract.Jobs.SayJobEnd` | balthachain/contracts/contracts/Jobs.sol:513-515 | `JobCompleted` logged if no task of the job is incomplete |
| `SharedState.Task.AssignWorker` | balthamisc/src/shared_state.rs:266-291 | takes the first free replica if the worker holds none, and says whether it did |
| `SharedState.Task.UnassignWorker` | balthamisc/src/shared_state.rs:253-263 | frees the first replica of the worker and returns it |
| `SharedState.Task.UpdateLastCheck` | balthamisc/src/shared_state.rs:233-243 | sets the time of the replica of the worker only |
| `SharedState.Task.GetNbUnassigned` | balthamisc/src/shared_state.rs:245-251 | counts the free replicas |
| `SharedState.Task.SetCompleted` | balthamisc/src/shared_state.rs:149-161 | keeps the payments of the assigned replicas, in order |
| `SharedState.Task.constructor` | balthamisc/src/shared_state.rs:62-71 | a task with `redundancy` free replicas |
| `SharedState.Task.Find` | balthamisc/src/shared_state.rs:222-243 | the first replica of the worker, if any |
| `SharedState.TouchKeeps` | balthamisc/src/shared_state.rs:349-351 | a check changes no assignment |
| `SharedState.AssignKeeps` | balthamisc/src/shared_state.rs:266-291 | assigning keeps the number of replicas and distinct workers, uses one free replica and adds that worker only |
| `SharedState.UnassignKeeps` | balthamisc/src/shared_state.rs:253-263 | unassigning keeps both, frees one replica and removes that worker only |
| `SharedState.PaymentsCount` | balthamisc/src/shared_state.rs:149-156 | the payment list has one entry for each assigned replica |
| `OracleChanges.SortSorts` | balthalib/src/node/shared_state.rs:61-89 | the sort is a permutation ordered by rank that keeps the order within a rank |
| `OracleChanges.SortUnique` | balthalib/src/node/shared_state.rs:61-89 | it is the only such list |
| `OracleChanges.SortFailure` | balthalib/src/node/shared_state.rs:466-495 | a failure is executed as releases, the new manager, the count, and the end of the task last |
| `OracleChanges.SortCompletion` | balthalib/src/node/shared_state.rs:116-126 | a completion registers the manager first |
| `OracleChanges.UnassignBatch` | balthalib/src/node/shared_state.rs:185-204 | releasing distinct assigned workers never errs and releases exactly them |
| `OracleChanges.AssignBatch` | balthalib/src/node/shared_state.rs:205-218 | the offers a handler accepted are all assigned if and only if they name distinct workers |
| `OracleChain.PushAllIff` | balthachain/src/lib.rs:890-915 | all managers are registered if and only if they stay within the contract's bound |
| `OracleChain.CompleteIff` | balthachain/src/lib.rs:951-985 | the contract accepts a completion if and only if there is a result, exactly `redundancy` payments and few enough managers; then only that task changes |
| `OracleChain.FailIff` | balthachain/src/lib.rs:921-949 | the contract accepts a definite failure if and only if the managers are few enough |
| `OracleChain.OtherTransactions` | balthachain/contracts/contracts/Jobs.sol:446-459 | transactions of anybody else leave every task and every locked job as they are |
| `OracleSafety.ProposeOutcome` | balthalib/src/node/shared_state.rs:273-333 | from every good world a proposal stops the node if and only if `Halts` says so (offers that repeat a worker; too many managers, an empty result or a free replica when finishing), and otherwise leads to a good world, in which contract and shared state agree on every task, an incomplete task has `redundancy` replicas with distinct workers, and a task is definitely failed if and only if its failures exceed the maximum |
| `OracleSafety.NoPanic` | balthalib/src/node/shared_state.rs:489-495 | the panic for a missing reason is unreachable |
| `OracleSafety.CompleteOpen` | balthalib/src/node/shared_state.rs:222-243 | finishing an incomplete task succeeds exactly when every replica is assigned, the result is not empty and the managers fit |
| `OracleSafety.FailureFacts` | balthalib/src/node/shared_state.rs:373-500 | an accepted failure releases distinct assigned workers; beyond the maximum it releases all of them and has a reason the contract can record |
| `OracleEffects.FailureAcceptedIff` | balthalib/src/node/shared_state.rs:373-485 | a failure is accepted if and only if the task is open, its kind is complete, the count announced is the one its kind calls for (one more for `TimedOut`, `Download`, `Runtime` and wrong results, the same for `Aborted` and a silent manager, any beyond the maximum for wrong specifications), and below the maximum the worker blamed holds a replica |
| `OracleEffects.FailureEffect` | balthalib/src/node/shared_state.rs:462-495 | below the maximum the worker blamed alone loses its replica, all others are as before and its manager is told; with no failure left, or nobody blamed, everybody loses theirs; the count is the one announced, and beyond the maximum the task ends here and on the contract with the reason of its kind |
| `OracleEffects.SchedulingAcceptedIff` | balthalib/src/node/shared_state.rs:503-551 | offers are accepted if and only if a replica is free and the first offers, as many as there are free replicas, can be read, are about the task, and name workers that hold none |
| `OracleEffects.SchedulingEffect` | balthalib/src/node/shared_state.rs:205-218 | the first offers fill the first free replicas in order, each with its worker, manager, address and prices, checked now; each worker is told, in order, and nothing else changes |
| `OracleEffects.CheckAcceptedIff` | balthalib/src/node/shared_state.rs:555-596 | a check is accepted if and only if the worker holds a replica and the interval of the job has passed since its last check |
| `OracleEffects.CheckEffect` | balthalib/src/node/shared_state.rs:174-181 | it sets the time of that replica to now, and changes nothing else |
| `OracleEffects.SecondCheckRefused` | balthalib/src/node/shared_state.rs:578-591 | after a check, another of the same worker is accepted if and only if the interval has passed again |
| `OracleEffects.CompletionAcceptedIff` | balthalib/src/node/shared_state.rs:599-652 | a completion is accepted if and only if the task is open and a result of a worker that holds a replica is reported about this task all through |
| `OracleEffects.CompletionEffect` | balthalib/src/node/shared_state.rs:222-243 | the task keeps the result and the terms of every replica, in order; the contract stores the result and the managers; no other task changes |
| `OracleEffects.NewTaskAcceptedIff` | balthalib/src/node/shared_state.rs:336-371 | a task is taken up if and only if it is unknown here, known to the contract, and its job is known or can be read |
| `OracleEffects.NewTaskEffect` | balthalib/src/node/shared_state.rs:128-162 | its record has a free replica for each run its job asks for, each announced once |
| `OracleEffects.RefusedEffect` | balthalib/src/node/shared_state.rs:111-126 | a proposal that is not accepted changes nothing |
| `OracleRuns.RunWorldOk` | balthalib/src/node/shared_state.rs:273-333 | over every run of proposals and transactions that has not stopped, contract and shared state agree, `Pending` less `Assigned` events are the free replicas, and `Assigned` less `Unassigned` events the assigned ones |
| `OracleRuns.FinalAndMonotone` | balthalib/src/node/shared_state.rs:410-463 | a proposal never changes a finished task, and lowers a failure count if and only if it is an accepted failure of a kind that counts one more on a task that has failed 2^64 - 1 times; the count is then 0 and the job allows 2^64 - 1 failures |
| `OracleExamples.CountWraps` | balthalib/src/node/shared_state.rs:410-463 | a run from deployment that reaches such a count in a good world, and the proposal that wraps it |
| `OracleExamples.EmptyResultStops` | balthalib/src/node/shared_state.rs:222-243 | a run from deployment that assigns the only replica; the report of an empty result then passes the handler and stops the oracle |
| `OracleExamples.FreeReplicaStops` | balthalib/src/node/shared_state.rs:222-243 | a run from deployment that assigns one of two replicas; the report of its result then stops the oracle |
| `OracleExamples.RepeatedWorkerStops` | balthalib/src/node/shared_state.rs:205-218 | a run from deployment to a task with two free replicas; two offers of one worker are then accepted and stop the oracle |
| `OracleExamples.TooManyManagersStops` | balthalib/src/node/shared_state.rs:222-260 | a run from deployment that assigns a task of a job whose bound on managers is 0; the report of its result stops the oracle, and so does that of its failure |
| `OracleRuns.FinishedForever` | balthalib/src/node/shared_state.rs:169-171 | over every run a finished task keeps its record |
| `OracleRuns.FailureTellsAll` | balthalib/src/node/shared_state.rs:468-495 | when a task definitely fails every worker assigned to it is told in that step, and the stored reason is never `Aborted` |
| `OraclePayments.CompletionPays` | balthalib/src/node/shared_state.rs:222-243 | when a proposal completes a task, every account gains exactly `(worker_price * timeout + network_price * max_network_usage) % 2^64` for each replica assigned under it plus one fee for each registration, the manager of the proposal included, and the sender of the job the rest of the price besides |
| `OraclePayments.FailurePays` | balthalib/src/node/shared_state.rs:244-260 | when a proposal makes a task definitely fail, managers get their fees, no worker is paid, and the sender of the job gets the rest of the price |
| `OracleNode.Node.ApplyStateChange` | balthalib/src/node/shared_state.rs:128-264 | one change on the records in memory and the contract object does what the function `Apply` says, errors included |
| `OracleNode.Node.CheckAndApplyProposal` | balthalib/src/node/shared_state.rs:273-333 | so does a whole proposal, up to the first error |
| `OracleNode.Node.SetManagers` | balthachain/src/lib.rs:890-915 | the managers pushed one by one, until a call reverts |
| `OracleNode.Node.FinishCompleted` | balthalib/src/node/shared_state.rs:234-242 | managers, then the completion, until a call reverts |
| `OracleNode.Node.FinishFailed` | balthalib/src/node/shared_state.rs:246-259 | managers, then the failure, until a call reverts or the reason cannot be recorded |
| `OracleNode.Node.Create` | balthalib/src/node/shared_state.rs:135-162 | a record with free replicas, one `Pending` told for each |
| `Workers.ReserveCounts` | balthalib/src/node/workers.rs:111-121 | reserving succeeds exactly when fewer slots are promised than do not work, promises one more, and touches no working slot |
| `Workers.AssignCounts` | balthalib/src/node/workers.rs:145-159 | a task gets a slot exactly when one does not work; it gets one, other tasks keep theirs, and a promised slot goes first |
| `Workers.UnassignCounts` | balthalib/src/node/workers.rs:161-177 | a task loses a slot exactly when it has one; the slot becomes available |
| `Workers.PushRemove` | balthalib/src/node/workers.rs:206-229 | peers stay distinct, and removing undoes pushing an unknown worker |
| `Workers.PushedSlots` | balthalib/src/node/workers.rs:206-213 | a new worker has one available slot for each processor; a known one is left alone |
| `Workers.Table.ReserveSlot` | balthalib/src/node/workers.rs:274-280 | one reservation, on the worker named and on no other |
| `Workers.Table.AssignSlot` | balthalib/src/node/workers.rs:300-306 | one assignment, on the worker named and on no other |
| `Workers.Table.UnassignSlot` | balthalib/src/node/workers.rs:308-317 | one release, on the worker named and on no other |
| `Workers.Table.UnreserveAllSlots` | balthalib/src/node/workers.rs:292-298 | every promised slot becomes available, on the worker named and on no other |
| `Workers.Table.Push` | balthalib/src/node/workers.rs:206-213 | a new worker, unless known, on the worker named and on no other |
| `Workers.Table.Remove` | balthalib/src/node/workers.rs:215-229 | a worker and its slots leave the table, on the worker named and on no other |
| `Workers.Table.GetUnassignedWorkersSorted` | balthalib/src/node/workers.rs:249-272 | workers that can take a task, those with an available slot first, on the worker named and on no other |
| `Workers.Worker.ReserveSlot` | balthalib/src/node/workers.rs:114-121 | the first available slot is promised |
| `Workers.Worker.AssignSlot` | balthalib/src/node/workers.rs:149-159 | the first promised slot, or else the first available one, works on the task |
| `Workers.Worker.UnassignSlot` | balthalib/src/node/workers.rs:164-177 | the first slot that works on the task becomes available |
| `Workers.Worker.constructor` | balthalib/src/node/workers.rs:59-67 | one available slot for each processor |
| `Workers.Worker.UnreserveAllSlots` | balthalib/src/node/workers.rs:137-143 | promised slots become available, others stay |
| `Scheduler.SortedMembers` | balthalib/src/node/workers.rs:241-272 | each worker that can take a task is listed once, and none with room after one without |
| `Scheduler.SchedulePromises` | balthalib/src/node/mod.rs:713-764 | after scheduling each worker's promised slots are the minimum of its slots that do not work and the offers naming it; working slots are as before |
| `Scheduler.ScheduleChooses` | balthalib/src/node/mod.rs:719-764 | one proposal a task, naming distinct able workers, as many as the missing replicas or the able workers allow, those with an available slot first |
| `Scheduler.ScheduledOutcome` | balthalib/src/node/mod.rs:734-762 | such a proposal never stops the oracle; it is accepted exactly when the task misses replicas and none of the workers looked at has one, and then exactly these are assigned |
| `Scheduler.AbortReleases` | balthalib/src/node/mod.rs:673-706 | the proposal sent for a lost worker is always accepted while it holds a replica, costs no failure, and frees the replica |
| `Scheduler.AbortExactly` | balthalib/src/node/shared_state.rs:468-487 | it frees the replica of that worker alone if the task has failed less often than allowed, and otherwise the replicas of all |
| `Scheduler.ScheduledTerms` | balthalib/src/node/mod.rs:732-745 | the replicas it fills are for its workers, under this manager, paid to its address at prices of 1 |
| `Scheduler.ProposeAssignements` | balthalib/src/node/mod.rs:710-767 | the loops over tasks and workers produce exactly that plan |
| `SlotMirror.RunBalanced` | balthalib/src/node/shared_state.rs:185-218 | over every run, what is told about a worker and a task alternates between assigned and unassigned, and while the task is open the last word is true |
| `SlotMirror.SlotsFollow` | balthalib/src/node/mod.rs:464-510 | whatever a manager plans and hears, at most one slot of a worker works on a task, and none unless the last word heard was an assignment |
| `SlotMirror.StatusWork` | balthalib/src/node/mod.rs:327-337 | a status frees one slot of its worker on its task, and panics exactly when there is none |
| `SlotMirror.NoticeExact` | balthalib/src/node/mod.rs:471-507 | a notice takes one slot of its worker when one does not work, or frees one that works on the task, and otherwise changes nothing |
| `SlotMirror.AbortsIff` | balthalib/src/node/mod.rs:476-479 | an assignment is aborted if and only if the worker is not in the table or all its slots work |
| `SlotMirror.ForeignAborted` | balthalib/src/node/mod.rs:473-479 | the oracle aborts an assignment of a worker it does not manage itself, and the worker loses the task |
| `SlotMirror.LateStatusPanics` | balthalib/src/node/mod.rs:333-337 | once a manager has heard that a worker lost a task, a status the worker still sends for it makes the manager panic |
| `OracleExamples.LateStatusHappens` | balthalib/src/node/mod.rs:327-337 | a run from deployment in which a worker gets a task and loses it, and what its manager hears of it: a slot works on the task, is freed, and the worker's status then makes the manager panic |
| `SlotMirror.HandleSharedStateChange` | balthalib/src/node/mod.rs:464-510 | one notice applied to the slot table, and when an assignment must be aborted |
| `SlotMirror.HandleTaskStatus` | balthalib/src/node/mod.rs:327-337 | the slot of a status freed, or a panic |
| `SlotMirror.DeleteWorker` | balthalib/src/node/mod.rs:306-324 | the row of a lost worker removed, each task aborted as often as a slot worked on it, a panic exactly when the worker is unknown |
| `Substreams.AgainLowersRank` | balthernet/src/balthazar/handler/handler_misc.rs:199-364 | a substream that asks to be polled again has a lower rank, so the inner loop of `poll` ends |
| `Substreams.FailsIff` | balthernet/src/balthazar/handler/handler_misc.rs:207-297 | a query is reported as failed if and only if it could not be opened, its stream broke, or the stream ended before the answer, with the error that says which |
| `Substreams.QueryAnswered` | balthernet/src/balthazar/handler/handler_misc.rs:207-306 | on a network without faults one poll sends a query, reads its answer and reports it |
| `Substreams.AnswerSent` | balthernet/src/balthazar/handler/handler_misc.rs:308-356 | on such a network one poll sends an answer and takes the next request of the peer |
| `Substreams.PollSweeps` | balthernet/src/balthazar/handler.rs:315-347 | despite `swap_remove` and `push`, a poll treats the substreams as one pass from last to first would: with nothing to say it advances each once, and otherwise those left alone are a prefix of the list |
| `Handler.EventsArrive` | balthernet/src/balthazar/handler.rs:481-631 | a request sent arrives as the same request and an answer as the same answer, and neither as the other; `Ack` arrives as nothing |
| `HandlerMessages.RunBears` | balthernet/src/balthazar/handler.rs:116-155 | over every run, a substream or an opening bears the message of the request injected with its user data, or of the last answer taken for its number |
| `HandlerMessages.RunSincere` | balthernet/src/balthazar/handler/handler_misc.rs:207-349 | over every run, each query written on a stream is the message of a request injected before with its user data, and each reply that of the last answer taken for its number |
| `HandlerMessages.QueryArrives` | balthernet/src/balthazar/handler.rs:116-155 | a query written, read by the handler of the peer as request `id`, is reported there as the very event injected here, under `id` |
| `HandlerMessages.ReplyArrives` | balthernet/src/balthazar/handler.rs:124-155 | a reply written, read by the peer that waits for it, is reported there as the answer injected here; `Ack` ends the query silently |
| `Handler.Balthandler.Poll` | balthernet/src/balthazar/handler.rs:300-348 | the loops over the vector compute the function the laws are about; the connection is kept for another 10 seconds exactly when the last substream ends with an event |
| `Handler.Balthandler.InjectEvent` | balthernet/src/balthazar/handler.rs:123-275 | a request is queued; an answer goes to the first substream that waits for it, or nowhere |
| `Handler.Balthandler.InjectDialUpgradeError` | balthernet/src/balthazar/handler.rs:277-289 | a failed opening is reported if a query waits for it |
| `HandlerRuns.RunOk` | balthernet/src/balthazar/handler.rs:65-69 | over every run each injected query is in exactly one place (a substream, an opening one, a reported outcome, or ended silently), inbound numbers are distinct, and on each inbound substream delivered requests and answers alternate |
| `HandlerRuns.ReportedOnce` | balthernet/src/balthazar/handler/handler_misc.rs:200-307 | a query injected once is reported at most once, and not while under way |
| `HandlerRuns.AdvanceBalance` | balthernet/src/balthazar/handler/handler_misc.rs:199-364 | one step neither loses nor duplicates a query, delivers a request exactly when it starts to wait for the behaviour, and never invents an inbound number |
| `RelationshipRuns.TurnConsistent` | balthernet/src/balthazar/mod.rs:561-612 | a turn of `poll` keeps announcements and workers together if and only if it is not a `NotMine` of a worker with an announcement about that worker still queued |
| `RelationshipRuns.StepConsistent` | balthernet/src/balthazar/events.rs:361-541 | every other step keeps them together: messages, pings, time-outs, orders, connections |
| `RelationshipRuns.RunConsistent` | balthernet/src/balthazar/mod.rs:532-608 | over every run without such an overtaking, replaying the announcements made and queued gives exactly the workers of the node, and no announcement ends an unknown worker |
| `RelationshipRuns.TableFollows` | balthalib/src/node/mod.rs:306-324 | then `delete_worker` always finds its worker, and with an empty queue the slot table lists exactly the workers |
| `RelationshipRuns.TurnPanicsIff` | balthalib/src/node/mod.rs:306-324 | a turn announces the end of a worker the slot table does not list, which is a panic, if and only if a `NotMine` overtakes and the table does not list its worker |
| `RelationshipExamples.OvertakingHappens` | balthernet/src/balthazar/events.rs:361-375 | a run in which every answer is to a query the node sent: a worker is hired, pinged, leaves, asks again, and its `NotMine` to the ping overtakes; the program is told the end of a worker it does not list, and then of a worker the node does not have |
| `RelationshipRuns.RunStopsIff` | balthernet/src/balthazar/mod.rs:408-421 | a run has stopped if and only if one of its steps was a turn that takes a lock twice or the end of a connection never seen |
| `RelationshipRuns.NotMineConsistent` | balthernet/src/balthazar/events.rs:361-375 | why: the announcement of `not_mine` does not go through the queue |
| `RelationshipExchanges.TimersExact` | balthernet/src/balthazar/mod.rs:493-559 | a poll gives up exactly the workers whose ping is unanswered for the time-out, and pings exactly those silent and not pinged for the interval |
| `RelationshipExchanges.PingSettles` | balthernet/src/balthazar/events.rs:195-217 | a ping and its answer leave the sender in the relationship exactly when both were in it, and the receiver as it was; a mutual one is renewed |
| `RelationshipExchanges.RequestSettles` | balthernet/src/balthazar/events.rs:377-523 | the node asked stops if and only if it is a manager that does not know the peer as a worker, and the node answered if and only if the peer is its manager already and it is not shutting down; when neither stops, a manager manages the other exactly when the other has it for a manager, unless the other is shutting down; a worker takes only a manager it authorizes, and only when it has none |
| `RelationshipExchanges.RunTypes` | balthernet/src/balthazar/events.rs:305-359 | over every run, whoever a node is in a relationship with is known to be of the other type |
| `Relationship.TurnStopsIff` | balthernet/src/balthazar/events.rs:385-417 | a turn of `poll` stops the node if and only if its event is a `ManagerRequest` to a manager from a peer not known as a worker, or a `ManagerAnswer` to a worker that is not shutting down from its own manager, known as one |
| `Relationship.DrainStopsIff` | balthernet/src/balthazar/mod.rs:561-611 | a poll stops the node if and only if one of its turns does so before any returns |
| `Relationship.NextLowers` | balthernet/src/balthazar/mod.rs:561-609 | a turn that neither returns nor stops the node lowers the number of events that are not actions, so a poll that is not stopped ends |
| `Relationship.TimersGo` | balthernet/src/balthazar/mod.rs:532-558 | pings and time-outs never stop the node: whoever is given up was in a relationship, so the branch marked unreachable is |
| `RelationshipMessages.RunAccounts` | balthernet/src/balthazar/mod.rs:185-234 | over every run, a message is held, waiting for its peer or in the queue, or has been handed out or reported as dropped, exactly as often as it was given; what each event, order and passing of time gives is listed apart |
| `RelationshipMessages.StepAccounts` | balthernet/src/balthazar/mod.rs:621-761 | one step: the same, and messages waiting for a peer are neither lost nor overtaken |
| `RelationshipMessages.ConnectedQueues` | balthernet/src/balthazar/mod.rs:389-406 | when a peer connects its waiting messages are queued in the order given, after the question for its type if it is unknown and ahead of the announcement, and none waits any more |
| `RelationshipMessages.OrderPlaced` | balthernet/src/balthazar/mod.rs:185-210 | what the program orders to send goes at once to a peer that is connected, waits for one that is not, which is dialled, and is reported as dropped when shutting down |
| `RelationshipMessages.RunLinks` | balthernet/src/balthazar/mod.rs:389-421 | over every run a node knows which of its peers are connected |
| `RelationshipMessages.RunShuts` | balthernet/src/balthazar/mod.rs:323-345 | over every run a node is shutting down if and only if it was told to |
| `RelationshipArrivals.HandlerTells` | balthernet/src/balthazar/events.rs:195-217 | what the program hears of each event of a peer, and nothing else: the contents of requests of a related peer, and of anybody else's only that they came |
| `RelationshipArrivals.OrderArrives` | balthernet/src/balthazar/events.rs:195-217 | an order of one node read by another: a related node's program hears exactly the order and acknowledges it; any other is not given it and refuses, which ends the relationship on the side of the first |
| `RelationshipArrivals.StatusesReturn` | balthernet/src/balthazar/events.rs:612-634 | the statuses a worker answers reach the program of the manager that asked, if it still has the worker |
| `RelationshipArrivals.TypesLearned` | balthernet/src/balthazar/events.rs:284-359 | a question for the type of a peer tells each node the type of the other, unless it was told another before |
| `RelationshipExamples.EarlyRequestStops` | balthernet/src/balthazar/events.rs:388-411 | a run of receivable events that stops a manager: a peer asks for a manager before it says what it is |
| `RelationshipExamples.WrongAnswerStops` | balthernet/src/balthazar/events.rs:445-471 | a run of receivable events that stops a worker: its manager answers a ping with a `ManagerAnswer` |
| `Behaviour.BalthBehaviour.ManagerRequest` | balthernet/src/balthazar/events.rs:378-433 | a manager that does not know the peer as a worker reads a record it is writing and stops; otherwise every guard is dropped and the peer is answered |
| `Behaviour.BalthBehaviour.ManagerAnswer` | balthernet/src/balthazar/events.rs:436-523 | a worker answered by its own manager writes a record it is reading and stops, unless it is shutting down; otherwise every guard is dropped |
| `Behaviour.BalthBehaviour.SendToPeerOrDial` | balthernet/src/balthazar/mod.rs:185-210 | a message is sent, stored with a dial, or dropped, and blocks exactly when a guard of the record is held and the node is not shutting down |
| `Behaviour.BalthBehaviour.HandlerEvent` | balthernet/src/balthazar/mod.rs:621-761 | one event of a peer: state, outcome and guards are those of the function the laws are about |
| `Behaviour.BalthBehaviour.PollTimers` | balthernet/src/balthazar/mod.rs:493-559 | each worker checked once, then pinged or given up, with no guard left |
| `Behaviour.BalthBehaviour.Poll` | balthernet/src/balthazar/mod.rs:481-612 | time, then the queue, until an event returns or stops the node; no guard outlives a poll that ends |
| `Behaviour.BalthBehaviour.HandleEventIn` | balthernet/src/balthazar/mod.rs:237-359 | each order of the node, and what is dropped while shutting down |
| `Behaviour.BalthBehaviour.InjectConnected` | balthernet/src/balthazar/mod.rs:389-406 | the peer is asked for its type if it is unknown, and its waiting messages are queued in order before the announcement |
| `Behaviour.BalthBehaviour.InjectDisconnected` | balthernet/src/balthazar/mod.rs:408-421 | a connection ends, or the node panics for a peer never seen |
| `ClientLaws.UploadThenRead` | balthachain/src/lib.rs:367-459 | an upload goes through if and only if a nonce is free and no argument is empty; then reading back gives the same job with its sender and nonce, at a new id, and no other job, task or balance changes |
| `ClientLaws.PricesAgree` | balthamisc/src/job.rs:465-474 | client and contract compute the same price of a task, on all inputs |
| `ClientLaws.TotalsAgreeIff` | balthamisc/src/job.rs:460-462 | and the same total if and only if it fits 64 bits |
| `ClientLaws.LockAgrees` | balthachain/src/lib.rs:490-511 | a draft that passes the client's checks with a total that fits passes the contract's, and exactly the client's total is moved |
| `ClientLaws.ChecksIff` | balthachain/src/lib.rs:490-506 | with a total that fits, the client lets a draft through if and only if it is the caller's, names a program, and passes the contract's checks on the low 128 bits of the balance |
| `ClientLaws.WrappingTotal` | balthachain/src/lib.rs:503-506 | two tasks of 2^63 each: the client computes a total of 0 and goes on, the contract asks for 2^64 |
| `ClientLaws.RunMinima` | balthachain/contracts/contracts/Jobs.sol:276-381 | over every run no parameter stored is below its minimum, so reading back clamps nothing |
| `Client.CreateDraft` | balthachain/src/lib.rs:367-459 | the calls of an upload on the contract object, until one reverts |
| `Client.GetJob` | balthachain/src/lib.rs:712-749 | a job rebuilt from the getters through the clamping setters |
| `Client.LockJob` | balthachain/src/lib.rs:490-511 | the client's checks, then the contract's |
| `Client.ClientJob.constructor` | balthamisc/src/job.rs:275-303 | a job with default parameters, none below its minimum |
| `Client.UploadFields` | balthachain/src/lib.rs:392-456 | the calls that fill in a draft, until one reverts |
| `ProofOfWork.MyRun` | balthwasm/src/lib.rs:12-22 | returns exactly when some 32-bit counter fits, and then the smallest one with its hash |
| `ProofOfWork.RunAccepted` | balthwasm/src/lib.rs:50-65 | whatever `my_run` returns, `test_result` accepts |
| `ProofOfWork.AcceptedIffSolvable` | balthwasm/src/lib.rs:50-65 | an accepted result exists if and only if some counter fits |
| `ProofOfWork.AcceptsText` | balthwasm/src/lib.rs:50-65 | any spelling of the counter that parses is accepted, and the outer bytes and whatever follows a second comma are not looked at |
| `ProofOfWork.AcceptsIff` | balthwasm/src/lib.rs:50-65 | a result with ASCII text is accepted if and only if the text is a spelling of a fitting counter that parses, a comma, its hash, and then nothing or a comma and anything |
| `ProofOfWork.PrintParse` | balthwasm/src/lib.rs:34-35 | printing a counter and parsing it back gives the counter |
| `ProofOfWork.HexReads` | balthwasm/src/lib.rs:34-42 | a hash is printed as two hexadecimal digits a byte, the high one first, and reads back as the bytes |
| `ProofOfWork.FormatReads` | balthwasm/src/lib.rs:16-17 | what is printed: the counter in its shortest form and the hash of its digits, in parentheses, with a comma between |
| `ProofOfWork.MyTest` | balthwasm/src/lib.rs:24-32 | the first accepted result, unless one before it is malformed |

The remaining methods of the classes set a field or queue one event, and are proved to do just that: the
setters of `Client.ClientJob`, which keep every parameter at or above its minimum and touch no other;
`SetDefinitelyFailed`, `AddManager` and `SetNbFailures` of `SharedState.Task`; `EndCompleted` and
`EndFailed` of `OracleNode.Node`, which set the record and make the calls; `InjectInbound` and
`InjectOutbound` of `Handler.Balthandler`; the four operations on guards of `Behaviour.BalthBehaviour`
and its methods that `HandlerEvent`, `Poll` and `HandleEventIn` are made of.

## Left out

Assumptions of the model:

* A reverted transaction comes back as an error of the call that sent it.
* The comparisons of identifiers at balthalib/src/node/shared_state.rs:433, 521, 624 and 648 take the
  bare digest of one side and the full multihash of the other. They are modelled as "same task id", which
  is what they are for.
* Keccak-256 is an uninterpreted function; `lock` and `create_draft` check freshness themselves, so no
  injectivity is assumed.
* The account of the oracle pushes managers and ends tasks only through the oracle node.
* `OtherData` and its bytes are inverse under encoding and decoding, and text that is ASCII is unchanged
  by `from_utf8_lossy`; nothing else is assumed of these libraries.
* A right-hand side with side effects is evaluated before the left-hand side of a compound assignment is
  read, as the compiler of the contract does.
* Whether a receiver accepts a transfer, whether a job fetched from the chain can be decoded, what a sink
  or stream answers, the time of a step, and the order in which a hash map is iterated are arbitrary
  inputs of the step that needs them.
* The contract never holds 2^128 wei or more, far above the ether in existence, where exact sums are claimed.
* Overflow wraps, as in a release build; counters of queries and of inbound substreams are unbounded.
* The node handles the events of the network in the order in which they are announced.

Not modelled:

* Gas, re-entrancy and ether forced into the contract; a search over 2^128 used nonces is a revert.
* The migrations and test contracts, the getters that only read one field, and the parsing of events of
  the contract; reading back uses the stored job directly.
* Other transactions between the calls of an upload: it runs as one step.
* libp2p transport, discovery, gossip, and addresses of peers beyond the set a configuration may look at.
* Guards of other threads: `GetWorkers` hands out peer records, and whoever holds one of their locks can
  delay the node. The node's own guards are modelled; several read guards at once never block each other.
  A relationship refers to its peer by identifier.
* The message a status turns into (`handle_task_status` builds a proposal; proposals of every kind are modelled on the oracle's side).
* Wake-ups (`DelayQueue`, `Context`) and channel capacities.
* Storage, the Wasmer runner and its host calls, and the command line.
* The logging of proposals, and proposals lost before they reach the oracle.
* A worker's specifications other than its number of slots, which are carried along unread.
* `GetWorkers`, which only returns the workers through a channel.

Stated weaker than the program:

- OracleNode.Node.CheckAndApplyProposal: the handlers read the shared state as a value built from the records, not through references into them.
- Workers.Table.GetUnassignedWorkersSorted: the library's stable sort with two classes of workers is written as two passes.
- ProofOfWork.MyRun: when no 32-bit counter fits the program loops for ever; the method returns `Forever`.
