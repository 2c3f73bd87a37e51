# Ledger engine: a verified model

This project models the core of a double-entry payment ledger and proves what its
operations keep over every run. It covers:

- the write side: opening accounts, deposits, and `RecordTransaction`, which applies entries one
  at a time with no roll-back;
- the transfer saga, which moves money through a suspense account in up to three recorded
  transactions, with compensation;
- the event store with its outbox, snapshots, and the projected read model;
- the outbox worker that polls, publishes and marks;
- the idempotency middleware, with many requests interleaving on one key-value store.

`dafny verify dfyconfig.toml` checks everything.

## How the model is built

**Specification and code.** Pure code is modelled by functions. Code that works in place is modelled
by classes and loops (`LedgerService.Service`, `TransferService.Orchestrator`,
`EventStore.OutboxWriter`, `Projection.PostgresProjector`, `Outbox.Worker`,
`Idempotency.IdempotencyStore`, ...). Each method is proved to change its tables, and to answer,
exactly as a function on values says, for instance
`(Contents(), r) == RecordTransaction(old(Contents()), env, cmds, description)`. The theorems are
about those functions.

**Faults.** Every storage call ends as a `Reply`: `Done`; `Refused` (no effect, an error); or `Lost`
(it took effect, but the caller sees an error). An `Env` fixes, for a whole run, the reply to each
call, by the place where it is made and its number, and the order in which `FindAll` lists accounts. A
statement that holds for every `env` holds under every fault pattern; `FaultFree(env)` is written where
it is assumed.

**Every moment.** Module `Moments` gives, as functions of commands and replies, the states after each
storage call of each command: after each save of a loop, after each leg of a saga. `RunTraces` proves
that one follows the other by a single storage call and its effect, and that each is reached by the
elementary steps of module `Steps`. What every elementary step keeps therefore holds between any two
storage calls.

**Stranded prefixes.** When entry k of a transaction fails, entries 0..k-1 stay applied. The history
variable `audit.stranded` collects those prefixes; no command reads it. `audit.unprojected` collects
the stored transactions that did not reach the read model.

**Integers.** Amounts are int64 and wrap. `Wrap(x)` is the int64 that two's complement arithmetic
leaves for the exact integer `x`, and balances are stated as `Wrap` of an exact sum. Postgres BIGINT
raises an error where Go would wrap, and the projector is modelled so.

**Identifiers** are drawn from one increasing supply; 0 is the nil UUID.

**Fault-free transfers as plans.** `SagaPlan.PlanTransfer` says which entries a saga posts to a table
of accounts and where it ends; `ExecuteFollowsPlan` ties the code to it and `TransferLaw` is proved
about it.

## What the proofs say about the documentation

- "Unbalanced transactions are always rejected" (the repository's README.md:98) holds when the amounts of the
  transaction total less than 2^64. Otherwise totals wrap: 4n debits of 2^62 with no credit at all are
  accepted for every n (`Transactions.UnbalancedAccepted`). The exact condition is
  `Transactions.AcceptedIffBalanced`.
- "Money is never created or destroyed during transfers" (the repository's README.md:96) fails, without storage
  faults, exactly for compensated transfers: the failed second step has already taken the amount out of suspense, and compensation
  takes it out again (`TransferRuns.TransferAfterAnyRun`, `TransferRuns.PaymentToNowhereDestroysMoney`).
- "Account balance equals sum of all entries" (the repository's README.md:97) fails even without storage faults:
  a transaction whose second entry is refused keeps its first (`Promises.BothPromisesFail`). Which calls
  keep it, exactly, is `Promises.RecordKeepsSumsIff`; over every run it holds once the stranded prefixes
  are counted (`Books.BalanceIsSumOfEntries`).
- "Event replay produces same state as direct computation" (the repository's README.md:100) fails in the same run and
  is kept by the same calls (`Promises.RecordKeepsReplayIff`); over every run it holds up to stranded
  prefixes and transactions stored without their event (`EventLog.ReplayLag`).
- "Debit exceeding balance is always rejected (asset accounts)" (the repository's README.md:99) fails at balance
  -2^63 with a debit of 1 (`Accounts.ExcessiveDebitAccepted`); the exact condition is
  `Accounts.ExcessiveDebitRejectedIff`.
- The comment that a missing suspense account "will fail at transaction validation"
  (internal/app/ledger_service.go:121) is not what happens: the source debit is saved and stranded
  first (`Scenarios.DebitIsStranded`), exactly when `TransferRuns.MissingSuspenseStrandsDebitIff` says.
- Requests with one idempotency key "are only processed once" (internal/infra/http/idempotency.go:11)
  is not guaranteed, because Check and Lock are separate steps. `IdempotencyRuns.HandlerRunsBounded`
  gives the bound, `IdempotencyLimits.BoundIsReached` shows that it is reached for every window size,
  and `IdempotencyRuns.ExactlyOnceIff` says exactly when the claim does hold.
- An entry type that is neither DEBIT nor CREDIT changes nothing on the write side and is a debit on
  the read side; `Books.ReadModelLag` counts the difference.

## Model

| member | source | states |
|---|---|---|
| Money.MoneyGroupLaws | internal/domain/ledger/money.go:46-62 | For all amounts, overflow included: subtraction undoes addition, adding the negation is subtracting, negation is an involution; across currencies both refuse |
| Money.NewMoney | internal/domain/ledger/money.go:35-40 | Money exists exactly for the five known currencies, with the amount and currency given |
| Money.WrapAdd | internal/domain/ledger/money.go:50 | Wrapping after every addition equals wrapping the exact sum once |
| Money.WrapCongruent | internal/domain/ledger/money.go:50 | Two exact sums give the same int64 if and only if they differ by a multiple of 2^64 |
| Accounts.NewAccountWithType | internal/domain/account/account.go:56-77 | An account is created if and only if the name is not empty and the currency is known |
| Accounts.LifecycleKeepsIdentity | internal/domain/account/account.go:117-191 | Over every sequence of operations, identity and balance currency never change, and a closed account never changes at all |
| Accounts.LifecycleLaws | internal/domain/account/account.go:154-191 | The status machine, the suspend-reactivate round trip, closing as final, balances untouched, and refusal of every operation unless active |
| Accounts.ExcessiveDebitRejectedIff | internal/domain/account/account.go:134-151 | A debit for more than an asset account holds is rejected if and only if the difference fits in int64 |
| Accounts.ExcessiveDebitAccepted | internal/domain/account/account.go:134-151 | At balance -2^63 a debit of 1 is accepted and leaves 2^63 - 1 |
| Transactions.NewTransaction | internal/domain/ledger/transaction.go:27-77 | The loops accept or reject exactly as the first failing check says, over wrapping int64 totals |
| Transactions.AcceptedIffBalanced | internal/domain/ledger/transaction.go:50-62 | Accepted if and only if the signed sum is zero modulo 2^64; exactly zero when magnitudes total less than 2^64 |
| Transactions.RejectionIs | internal/domain/ledger/transaction.go:28-62 | Every answer of the constructor's checks, from the entries themselves and in order |
| Transactions.UnbalancedAccepted | internal/domain/ledger/transaction.go:50-62 | For every n, a list with signed sum -n * 2^64 that is accepted |
| Repositories.AccountRepository.Save | internal/infra/inmemory/account_repository.go:26-31 | Overwrites the whole record under its id, unless the call is refused |
| Repositories.AccountRepository.FindByID | internal/infra/inmemory/account_repository.go:33-41 | The record if there is one, the not-found error if there is none |
| Repositories.TransactionRepository.Save | internal/infra/inmemory/transaction_repository.go:25-30 | Overwrites the record under its id, unless the call is refused |
| Repositories.TransactionRepository.FindByAccountID | internal/infra/inmemory/transaction_repository.go:42-56 | Every stored transaction that touches the account, each once; their entries add up to the account's sum over the whole store |
| LedgerService.Service.OpenAccount | internal/app/ledger_service.go:51-87 | Tables and result are those of the specification: save, then event, then projection, stopping at the first error |
| AccountOpening.OpenAccountLaw | internal/app/ledger_service.go:51-87 | Opening, completely: refused without a name or with an unknown currency; otherwise an active, empty account with the name and currency asked for, equity or liability exactly when asked for and an asset otherwise, in whichever tables the replies allow |
| AccountOpening.LookupLaw | internal/app/ledger_service.go:126-143 | Looking up a system account, completely: a storage fault, the stored account of that name, or an opening |
| LedgerService.Service.GetOrCreateSystemAccount | internal/app/ledger_service.go:126-143 | The scan returns the first listed account with the name and opens one only when there is none |
| LedgerService.Service.ApplyEntries | internal/app/ledger_service.go:180-199 | The read-modify-save loop leaves earlier saves in place when it stops |
| LedgerService.Service.RecordTransaction | internal/app/ledger_service.go:160-233 | Tables and result are those of the specification for every command and every fault pattern |
| LedgerService.Service.AppendEvent | internal/app/ledger_service.go:235-258 | One event appended at expected version 0, through the outbox writer |
| LedgerService.Service.Deposit | internal/app/ledger_service.go:96-110 | Tables and result are those of the specification |
| LedgerService.Service.SuspenseAccountID | internal/app/ledger_service.go:118-124 | The suspense account's id, or the nil id when it can be neither found nor opened |
| RecordLaw.RecordMoves | internal/app/ledger_service.go:160-233 | Under any faults every balance moves by exactly the entries whose saves took effect, without faults the funded prefix; on success that is all of them, the transaction is stored and its event is last in the log; if the transaction is not stored they are stranded |
| RecordLaw.RecordAnswers | internal/app/ledger_service.go:160-233 | What the call answers under every fault pattern: an unknown currency, the constructor's rejection, success exactly when all is saved and acknowledged, the refusal of the entry the loop stops at told from table and entry, or a storage fault |
| RecordLaw.FaultFreeAnswers | internal/app/ledger_service.go:180-199 | Without storage faults: the refusal of the first entry that is not funded, or success |
| RecordLaw.ToEntriesIs | internal/app/ledger_service.go:161-172 | An entry in an unknown currency is refused; otherwise every entry keeps account, amount, currency and type |
| Deposits.DepositMoves | internal/app/ledger_service.go:96-110 | Under any faults, a successful deposit takes the amount from the currency's equity account, gives it to the account, and moves nothing else |
| Deposits.DepositSucceedsIff | internal/app/ledger_service.go:96-110 | Without storage faults a deposit succeeds if and only if the equity account is found or opened, the currency is known, that account takes the debit, and the account is active with the currency |
| Deposits.DepositAfterAnyRun | internal/app/ledger_service.go:96-114 | After any run under any faults in which no client opened the equity name of the currency, a fault-free deposit is answered by the accounts alone: refused for an unknown currency or zero amount; successful from that currency's own equity account if and only if the account exists, is active and has the currency; otherwise refused for the account's reason, leaving the equity debit behind |
| Deposits.DepositWithoutEquity | internal/app/ledger_service.go:97-100 | Under any faults, a deposit whose equity account can be neither found nor opened answers with a storage fault and moves nothing |
| Posting.PostAllBalance | internal/app/ledger_service.go:180-199 | Posting a list, with repeated accounts, moves each balance by the exact sum of its entries, wrapped once |
| Posting.AllAcceptedIff | internal/domain/account/account.go:134-151 | A list gets through if and only if every account is usable and every guarded debit is covered at its turn |
| Posting.LoopLeaves | internal/app/ledger_service.go:180-199 | What the loop leaves under every fault pattern: the accounts with the first k entries posted, k told from table and replies alone; success if and only if k is all of them and the last save was acknowledged |
| Posting.LoopAnswers | internal/app/ledger_service.go:180-199 | Why the loop fails: account not found, not active, zero amount, wrong currency or insufficient funds of the entry it stops at, and a storage fault otherwise |
| Posting.LoopPosts | internal/app/ledger_service.go:180-199 | Without storage faults the loop posts exactly the funded prefix and succeeds if and only if that is the whole list |
| Promises.RecordKeepsSumsIff | internal/app/ledger_service.go:180-203 | Without storage faults a call keeps "balance equals sum of all entries" if and only if it is refused up front, fully funded, or its funded prefix cancels out on every account |
| Promises.RecordKeepsReplayIff | internal/app/ledger_service.go:180-226 | The same condition decides whether replaying the event log still gives every balance |
| Promises.BothPromisesFail | internal/app/ledger_service.go:180-203 | A literal two-command run without any fault after which an account shows -5 and no stored entry and no event explains it |
| Reordering.OrderDoesNotMatter | internal/app/ledger_service.go:180-199 | Two orders of the same entries that both get through leave the same accounts |
| Reordering.CreditsFirstSucceeds | internal/app/ledger_service.go:180-199 | If any order of positive entries gets through without wrapping, every credits-first order does, with the same accounts |
| Reordering.RecordCreditsFirst | internal/app/ledger_service.go:160-233 | The same for the call itself, on permuted commands |
| Steps.StepKeepsWellFormed | internal/app/ledger_service.go:51-233 | Every elementary step keeps identifiers, currencies and tables consistent |
| Calls.CommandIsItsCalls | internal/app/transfer_service.go:33-94 | Every command, deposits and sagas included, does exactly what its sequence of open, lookup and record calls does |
| Calls.CommandCallsAreProper | internal/app/transfer_service.go:33-94 | A command looks up only system accounts, opens only what the client named, and its calls move no more than it asks for |
| Moments.RunTraces | internal/app/ledger_service.go:51-233 | The states after every storage call of every run, a function of commands and replies, follow one another by single hops, end in the result, and are reached by elementary steps bounded by what the commands ask for |
| Moments.LoopStates | internal/app/ledger_service.go:180-199 | The moments of the entry loop contain the state after every prefix of its entries |
| Moments.HopCalls | internal/app/ledger_service.go:51-233 | Between two consecutive moments there is at most one storage call |
| Books.EveryMomentIsSound | internal/app/ledger_service.go:180-230 | All the book invariants hold at every moment of every run |
| Books.BalanceIsSumOfEntries | internal/app/ledger_service.go:180-203 | In every run each balance is the sum of the account's stored and stranded entries, modulo 2^64, and exactly below 2^63 moved |
| Books.TotalIsStrandedSum | internal/app/ledger_service.go:180-203 | The total of each currency drifts from zero by exactly the stranded prefixes |
| Books.NeverOverdrawn | internal/domain/account/account.go:134-151 | With positive amounts moving less than 2^63, no asset account is negative at any moment of any run |
| AccountOpening.OpenedAssetNeverNegative | internal/app/ledger_service.go:51-58 | From the client's command: an account opened as "ASSET" keeps its name, type and currency and is never negative at any moment of a positive run below 2^63 |
| Books.PathNeverOverdrawn | internal/domain/account/account.go:134-151 | The same on every path of elementary steps, whether or not a command takes it |
| Books.ReadModelLag | internal/projection/projector.go:36-85 | Write minus read balance is exactly stranded prefixes, unprojected transactions and unknown-type entries, modulo 2^64; the two agree if and only if these cancel |
| Agreement.ReadModelLagIsExact | internal/projection/projector.go:36-85 | The same as exact integers under any faults while less than 2^63 moves |
| Books.ReadSideBalances | internal/projection/projector.go:36-85 | With typed entries, the read-side total of each currency is zero modulo 2^64 in every run, exactly zero when each stored transaction moves less than 2^63 |
| Books.HistoryIsRunningBalance | internal/projection/projector.go:43-84 | Each account's history is a running balance that ends at its read balance, and its version is 1 plus its row count |
| Agreement.ReadModelKeepsUp | internal/projection/projector.go:36-85 | If events are appended and projected and no opening or transaction save loses its acknowledgement, whatever else fails: with typed entries below 2^63 nothing stays unprojected and every write balance is exactly the read balance plus what was stranded |
| Projection.PostgresProjector.ProjectAccountOpened | internal/projection/projector.go:22-33 | Inserts a zero row at version 1, or nothing when the row exists |
| Projection.PostgresProjector.ProjectTransactionRecorded | internal/projection/projector.go:36-85 | All entries are projected or none is; a missing row and an overflow both roll back |
| Projection.ProjectionAppends | internal/projection/projector.go:43-84 | A projected transaction appends exactly its entries as rows, in order, under its id and description |
| Projection.RunningSum | internal/projection/projector.go:43-84 | A running balance ends at the int64 of the exact sum of its rows |
| History.HistoryTellsTransactions | internal/projection/projector.go:22-85 | At every moment of every run: history shows each stored transaction completely or not at all, with its description; every row names a stored transaction; balance rows carry their account's name, type and currency; nothing is shown whose event is not in the log |
| EventLog.AppendKeepsMirror | internal/infra/postgres/outbox.go:34-66 | The double write is atomic: whatever the versions and the reply, the outbox still mirrors the event table |
| EventLog.EventsMatchStore | internal/app/ledger_service.go:201-226 | At every moment of every run the outbox mirrors the events, no aggregate has two events, and every event names a stored transaction or account |
| EventLog.ReplayLag | internal/app/ledger_service.go:201-226 | In every run, replaying the log gives each balance up to stranded prefixes and transactions whose event was never appended |
| EventStore.OutboxWriter.AppendWithOutbox | internal/infra/postgres/outbox.go:34-66 | Row-by-row inserts commit to both tables or to neither; a taken version is a conflict |
| EventStore.AppendOnDense | internal/infra/postgres/outbox.go:34-66 | At 0 <= expected <= n a non-empty append succeeds if and only if expected = n; a failed one changes neither table; every log stays dense |
| EventStore.DenseIffNoGap | internal/infra/postgres/event_store.go:32-42 | Without the callers' bound: exactly which expected versions leave the log dense |
| EventStore.AtMostOneWins | internal/infra/postgres/event_store.go:25-45 | On any table, of two appends at the same version the second conflicts and changes nothing |
| EventStore.QueryEvents | internal/infra/postgres/event_store.go:51-78 | The loop returns the selection that the query specifies |
| EventStore.LoadIsOrderedSelection | internal/infra/postgres/event_store.go:51-78 | A load holds exactly the matching rows, each as often as the table has it, in version order, gaps included |
| EventStore.LoadOnDense | internal/infra/postgres/event_store.go:51-78 | On a dense log, loading from version v skips exactly the first v events |
| EventStore.SnapshotStore.Save | internal/infra/postgres/event_store.go:89-97 | One row per aggregate, overwritten |
| EventStore.SnapshotStore.Load | internal/infra/postgres/event_store.go:99-109 | The stored snapshot, or version 0 when there is none |
| EventStore.SnapshotReplayEqualsFullReplay | internal/infra/postgres/event_store.go:47-109 | For any fold and any run of appends and snapshot overwrites, snapshot plus later events equals full replay |
| AccountTable.PostgresAccountRepository.Save | internal/infra/postgres/account_repository.go:25-35 | An existing row keeps name, type and currency; only balance and status are rewritten |
| AccountTable.PostgresAccountRepository.FindByID | internal/infra/postgres/account_repository.go:37-58 | The account rebuilt from its row, or the not-found error |
| AccountTable.UpsertAgreesIff | internal/infra/postgres/account_repository.go:25-58 | After the same save, table and map answer alike if and only if the account is coherent and keeps its identity |
| AccountTable.UpsertRefinesMap | internal/infra/postgres/account_repository.go:25-58 | At every moment of every service run, the Postgres table that received every record written so far and the in-memory map give the same answer to every lookup |
| TransferService.Transfer.MarkDebited | internal/domain/transfer/transfer.go:72-80 | Allowed from INITIATED only; state and audit step move together |
| TransferService.Transfer.MarkCompleted | internal/domain/transfer/transfer.go:83-91 | Allowed from DEBITED only; state and audit step move together |
| TransferService.Transfer.MarkFailed | internal/domain/transfer/transfer.go:94-99 | FAILED with its reason and one more audit step |
| TransferService.Transfer.MarkCompensated | internal/domain/transfer/transfer.go:102-106 | COMPENSATED with one more audit step |
| TransferService.Orchestrator.Execute | internal/app/transfer_service.go:33-94 | Ledger, saga and error are those of the specification, under every fault pattern |
| SystemAccounts.RunKeepsRole | internal/app/ledger_service.go:112-143 | If no client opens the name reserved for a role in a currency, every run under any faults keeps at most one such account, active, of the role's type and in that currency |
| SystemAccounts.NamesDiffer | internal/app/ledger_service.go:112-119 | Reserved names tell equity from suspense and one currency from another |
| SagaPlan.SuspenseResolves | internal/app/ledger_service.go:118-143 | Fault-free, the lookup finds or opens an account with the reserved name; if there is one, it is that one |
| SagaPlan.ExecuteFollowsPlan | internal/app/transfer_service.go:33-94 | Fault-free, with any number of accounts under the reserved name, Execute posts exactly the entries of a plan through such accounts, ends in the plan's state, and strands the plan's prefixes |
| TransferLaw.PlanCases | internal/app/transfer_service.go:45-60 | Where a saga goes at its first leg, by conditions on source and suspense account |
| TransferLaw.InwardCases | internal/app/transfer_service.go:62-93 | Where a saga goes from its second leg on, critical branch included, by conditions on suspense account and destination |
| TransferLaw.HealthyOutcome | internal/app/transfer_service.go:33-94 | With a healthy suspense account, source and destination alone decide the end, and the critical branch is unreachable |
| TransferLaw.LawfulIffSuspenseFits | internal/app/transfer_service.go:33-94 | For every table and amount, wrapping included: FAILED moves nothing, COMPLETED moves the amount, COMPENSATED leaves suspense short, if and only if the suspense account fits the transfer |
| TransferLaw.CompletedLawfulIff | internal/app/transfer_service.go:62-93 | With several accounts under the reserved name, a completed transfer moves the amount and nothing else if and only if both lookups gave the same account |
| TransferRuns.TransferEnds | internal/app/transfer_service.go:33-94 | With a sound suspense account a fault-free transfer ends in exactly one of the three ways, never critically, and answers with the error the accounts alone decide |
| TransferRuns.ExecuteLawfulIff | internal/app/transfer_service.go:33-94 | The law for the call itself, whatever the one account under the reserved name is |
| TransferRuns.TransferAfterAnyRun | internal/app/transfer_service.go:33-94 | After any run under any faults, a fault-free transfer ends in one of the three ways, answers with the error that source or destination gives, and conserves the total unless, and only unless, the source can pay and the destination cannot be paid |
| TransferRuns.PaymentToNowhereDestroysMoney | internal/app/transfer_service.go:62-87 | Paying to an account that does not exist changes the total, every time |
| Scenarios.MoneyIsDestroyed | internal/app/transfer_service.go:62-87 | A literal run that meets those premises: one liability account, reliable storage, a payment to an id never issued |
| AuditTrail.AuditTrailIsJustified | internal/app/transfer_service.go:33-94 | Under any faults the answer tells everything: none means COMPLETED, a debit error FAILED, a reversed credit COMPENSATED, a critical error FAILED after DEBITED; with every step and action of the trail, the reason carrying the same error, the command's own data, and each step backed by a transaction this very call stored with the leg's entries and description; an unknown currency and a transfer to oneself are refused with that error |
| TransferRuns.MissingSuspenseStrandsDebitIff | internal/app/ledger_service.go:116-124 | Without a suspense account the saga fails, and the source debit stays saved and stranded if and only if the source is found, takes it, and the save is not refused; otherwise no balance moves |
| Scenarios.DebitIsStranded | internal/app/ledger_service.go:116-124 | A literal run in which that happens: accounts cannot be listed, the debit of 5 stays |
| Outbox.Worker.ProcessBatch | internal/app/outbox_worker.go:52-79 | Flags exactly the acknowledged ids when the mark takes effect; delivers exactly the ids not refused, in order |
| Outbox.PollMakesProgress | internal/app/outbox_worker.go:63-78 | While fewer rows than the batch size are refused for good, each poll whose mark succeeds lowers the acceptable backlog |
| Outbox.PollingPublishesAll | internal/app/outbox_worker.go:63-78 | As many polls as there are acceptable rows publish them all |
| Outbox.BacklogAfterPolls | internal/app/outbox_worker.go:52-79 | Without refusals a backlog of n holds max(0, n - k * batchSize) rows after k polls |
| Outbox.OldRefusalsBlock | internal/infra/postgres/outbox.go:69-93 | A batch of refused rows older than all others blocks delivery for ever |
| OutboxSafety.DeliveryCount | internal/app/outbox_worker.go:52-79 | In every state of every run, a row's deliveries are its flag plus the polls that delivered it unmarked, the poll under way, and lost acknowledgements |
| OutboxSafety.FlaggedWasDelivered | internal/app/outbox_worker.go:72-78 | Flagged rows were delivered, and only committed rows are delivered |
| OutboxSafety.NoRowIsLost | internal/infra/postgres/outbox.go:95-102 | Over every run rows are never dropped or rewritten, flags only rise, deliveries are never forgotten |
| OutboxSafety.ExactlyOnceWithoutFaults | internal/app/outbox_worker.go:17-18 | With every acknowledgement received and every poll marked, delivery is exactly once |
| OutboxSafety.DeliveredAnyNumberOfTimes | internal/app/outbox_worker.go:17-18 | Crashes can repeat a delivery any number of times: at least once, not at most once |
| OutboxSafety.PollIsItsSteps | internal/app/outbox_worker.go:52-79 | An undisturbed poll in single steps has exactly the effect of ProcessBatch |
| Idempotency.DerivedKeysCoincide | internal/infra/redis/idempotency.go:75-77 | Exactly when two derived keys are the same key |
| Idempotency.LockEffect | internal/infra/redis/idempotency.go:41-44 | For all keys, what taking or dropping a lock does to every response, status and lock |
| Idempotency.PutEffect | internal/infra/redis/idempotency.go:47-59 | For all keys, what a store does to every response, status and lock: its own entry replaced and lock released, and exactly which prefixed keys it disturbs |
| Idempotency.ParseDecimal | internal/infra/redis/idempotency.go:51-68 | A status code written as text is read back unchanged |
| Idempotency.IdempotencyStore.Check | internal/infra/redis/idempotency.go:28-37 | The cached response, or none, or the storage error |
| Idempotency.IdempotencyStore.Lock | internal/infra/redis/idempotency.go:41-44 | Takes the lock if and only if it is free |
| Idempotency.IdempotencyStore.Store | internal/infra/redis/idempotency.go:47-59 | Response and status written and lock removed, or nothing |
| Idempotency.IdempotencyStore.GetStatus | internal/infra/redis/idempotency.go:62-68 | The cached code, 0 when there is none, an error when it is unreadable |
| Idempotency.IdempotencyStore.Unlock | internal/infra/redis/idempotency.go:71-73 | The lock removed, unless the call is refused |
| Idempotency.Recorder.Capture | internal/infra/http/idempotency.go:79-93 | After a handler's writes the recorder holds the last header and all the bytes |
| Idempotency.TextIsConcatenation | internal/infra/http/idempotency.go:90-93 | The recorded body is the handler's pieces put together |
| Idempotency.ReplayMatchesSentIff | internal/infra/http/idempotency.go:85-93 | A response is replayed with the body the first client received, and with its status if and only if the last header the handler wrote was the one sent |
| IdempotencyProtocol.MutualExclusion | internal/infra/http/idempotency.go:49-73 | In every interleaving, with any client keys, at most one request per key is between its Lock and its Store or Unlock |
| IdempotencyRuns.HandlerRunsBounded | internal/infra/http/idempotency.go:28-73 | After the first Store only requests then between Check and Lock still run; runs are at most 1 plus locks given back plus that window |
| IdempotencyRuns.LaterRequestsReplay | internal/infra/http/idempotency.go:30-47 | A request that had not checked at a Store never runs the handler: it replays, fails its Check, or dies |
| IdempotencyRuns.HandlerRunsWithoutStore | internal/infra/http/idempotency.go:68-73 | While no response is stored, every run but one gave its lock back after a failed Store |
| IdempotencyRuns.ExactlyOnceIff | internal/infra/http/idempotency.go:10-11 | At the first Store of a key, every continuation leaves exactly one handler run if and only if no request is then between Check and Lock and none gave the lock back |
| IdempotencyLimits.BoundIsReached | internal/infra/http/idempotency.go:30-60 | For every n a run without any fault in which the window is n and the handler runs n + 1 times |
| IdempotencyLimits.LostStoreBreaksExclusion | internal/infra/http/idempotency.go:69-72 | If a Store takes effect but reports an error, two requests of one key can be in their critical sections together |
| IdempotencyLimits.PrefixedKeyReplaysLock | internal/infra/redis/idempotency.go:75-77 | A key that is not plain can be answered with another key's lock text although nobody ran its handler |
| IdempotencyLimits.PrefixedKeyRunsAgain | internal/infra/redis/idempotency.go:75-77 | The stored response of a key that is not plain can be removed by another key's Store, and a later request runs the handler again |
| IdempotencyReplay.ReplaysAreStoredResponses | internal/infra/http/idempotency.go:36-47 | Every replay of a plain key returns a body stored by a request of that key; its status is 200, one stored for it, or a number stored under "status:" + key |
| IdempotencyReplay.ReplayRepeatsTheOneRun | internal/infra/http/idempotency.go:36-47 | If the handler of a plain key ran once, every replay repeats that body, and that status or 200 unless "status:" + key was processed too |
| IdempotencyReplay.ReplayStatusIff | internal/infra/http/idempotency.go:38-41 | If the handler ran once, a replay shows the stored status if and only if the status read succeeds or that status was 200 |
| IdempotencyMiddleware.RequestEnds | internal/infra/http/idempotency.go:28-73 | A request left alone ends, by a legal run that touches no other request |
| IdempotencyMiddleware.Serve | internal/infra/http/idempotency.go:14-75 | POST and PUT requests with a key are answered as the protocol's steps say, case by case, with the HTTP status each case sends; any other request leaves the store alone |
| IdempotencyMiddleware.AloneIsTold | internal/infra/http/idempotency.go:28-73 | What a request alone is told and leaves in the cells, by the cells it finds and the replies it gets |
| IdempotencyMiddleware.SecondRequestReplays | internal/infra/http/idempotency.go:10-47 | A first request with a new key is processed and a second one is answered with the first one's response, whatever its own handler would write |
| IdempotencyMiddleware.ServeTwice | internal/infra/http/idempotency.go:14-75 | The same POST or PUT sent twice through the middleware: processed, then replayed |

## Left out

- HTTP handlers and response bodies of the middleware's own errors, router, JSON encoding, metrics, health checks, the frontend and the wiring in `cmd`: presentation and I/O.
- Conversion of decimal amounts to cents in the handlers: the model starts at integer amounts.
- Concurrent ledger calls: `Save` overwrites a balance with no version check, so commands run one at a time; only the outbox worker and the idempotency requests interleave.
- Clocks and UUID generation: timestamps are dropped, except as an abstract order of outbox rows; identifiers come from an increasing supply. Entry ids, and the `Detail` text and timestamps of saga steps, are dropped with them.
- The service without an outbox writer or without a projector (internal/app/ledger_service.go:82, 252-257): the deployed configuration, with all ports present, is modelled. `EventStore.Append` without an outbox is the same loop with one table fewer.
- `FindAll` is an oracle that lists exactly the stored accounts in any order; the `ORDER BY name` of the Postgres version is one such order.
- Suspending, reactivating and closing accounts are modelled on the entity only, because no service command reaches them.
- Redis expiry: locks and responses do not expire during a run. A pipeline that applies some of its commands is not modelled.
- A cached response with an empty body counts as a hit; every handler writes a JSON body.
- Status codes are non-negative and a stored code is read as plain digits; signs and int64 range checks of Go's integer parser are not modelled.
- Row locks of FOR UPDATE SKIP LOCKED and several workers at once: one worker polls, and the locks end with the fetch's own query.
- Outbox rows in the delivery model carry their creation order and flag, not the payload; `EventLog` ties payloads to events.
- Query service and the LogPublisher: plain selects over the tables that `Projection` models, and a stub that always succeeds.
- Deposits.DepositAfterAnyRun: assumes that no client opens an account under the reserved equity name of the currency, because system accounts are found by name alone; `Deposits.DepositSucceedsIff` assumes nothing.
- IdempotencyProtocol.MutualExclusion: assumes that a Store that reports an error had no effect; `IdempotencyLimits.LostStoreBreaksExclusion` shows that this is needed. Client keys are arbitrary.
- IdempotencyRuns.HandlerRunsBounded: the observed key, and no other, must not start with `lock:` or `status:`; `IdempotencyLimits.PrefixedKeyRunsAgain` and `IdempotencyLimits.PrefixedKeyReplaysLock` show what happens to keys that do.
- TransferRuns.TransferAfterAnyRun: assumes that no client opens an account under the reserved suspense name of the currency, because system accounts are found by name alone.
- TransferRuns.ExecuteLawfulIff: assumes at most one account under the reserved name. For several, `SagaPlan.ExecuteFollowsPlan` gives the plan and `TransferLaw.CompletedLawfulIff` the law of completed transfers; the compensated ones are not worked out.
