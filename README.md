# Payment ledger engine — Dafny model

This project models the payment ledger engine of `banking-exercise`. The engine
consumes deposits, withdrawals and dispute actions (dispute, resolve,
chargeback) for many clients and keeps one account per client. Each account has
`available` and `held` funds and a `locked` flag. It also keeps a history of
transactions and a log of dispute actions.

- `Types.dfy` holds the value types: the two event enums, the history record,
  the five transaction states, and `Account`, the value of one client account.
  Client ids are `u16` and transaction ids are `u32`, both as subset types.
  Money is an exact `real` of any sign, standing in for `rust_decimal::Decimal`.
- `Spec.dfy` (module `AccountSpec`) gives the reference semantics on values.
  `ApplyTransaction` and `ApplyDisputeAction` do this. The state machine is a
  table, `NextState`, that has only the three transitions that do anything.
- `ClientAccount.dfy` (module `Ledger`) is the account as a class whose fields
  are updated in place. `AddDisputeAction` keeps the source's fifteen explicit
  (state, action) arms. Each mutating method is proved to leave exactly the
  value the reference semantics computes.
- `Engine.dfy` covers two things:
  - the registry as a value (`RouteTransaction`, `RouteDisputeAction`);
  - the class `PaymentEngine`, which maps client ids to account objects and
    opens accounts lazily.
- `Held.dfy` (module `HeldFunds`) proves the account invariant: `held` is the
  sum of the amounts of the currently disputed deposits, provided transaction
  ids are never reused. It also proves a weaker invariant that holds for any
  ids while recorded amounts are non-negative: `held` is at least that sum.
- `Replay.dfy` feeds whole event streams to the engine. It proves:
  - client isolation;
  - lock permanence;
  - that the held invariant holds across the registry;
  - that with non-negative amounts no account's `held` goes negative, even
    when transaction ids are reused.

  It also replays the unit-test scenarios.
- `Scenarios.dfy` drives the `PaymentEngine` object itself through four of
  the unit tests.

The account's getters (`Id`, `Available`, `Held`, `Locked`) and
`WithdrawalAmountAllowed` are functions of the class. They read one field or
make one comparison, and they have no contract of their own.
`AccountSpec.Admits` states when a withdrawal is allowed, and
`ClientAccount.AddTransaction` uses `WithdrawalAmountAllowed` for exactly
that test.

The model follows the code where it is weaker than one might expect:
- `available` can go negative when a deposit whose funds were already withdrawn
  is disputed (`Replay.DisputeCanOverdraw`).
- A reused transaction id overwrites the earlier history entry, so the held
  invariant needs fresh ids.
- A locked account still logs every dispute action.

## Model

| member | source | states |
|---|---|---|
| Types.NewRecord | src/lib.rs:85-95 | A new history entry keeps the transaction and is Accepted exactly when accepted, Rejected otherwise. |
| AccountSpec.NextState | src/lib.rs:217-296 | Only Dispute on Accepted, and Resolve or Chargeback on Disputed, move a record, each to its own target. Rejected, Resolved and Chargebacked are terminal. Every other pair is a no-op. |
| AccountSpec.ApplyTransaction | src/lib.rs:149-152 | The only failure is a client-id mismatch, and it hands back the same transaction. |
| AccountSpec.TransactionEffect | src/lib.rs:154-184 | For the account's own transaction, exactly one history entry is written under its id. It is Accepted iff the account is unlocked and the transaction is a deposit or is covered by `available`. Deposits credit `available`. A withdrawal is all or nothing. A locked account only records a Rejected entry. `held`, `locked` and the log never change. |
| AccountSpec.ApplyDisputeAction | src/lib.rs:191-299 | The only failure is a client-id mismatch, and it returns the action. A locked account only appends the action to the log. An unknown reference or a no-op pair leaves the account unchanged and unlogged. An effective action moves the record along `NextState`, shifts the balances by the per-case amounts, and appends to the log. The lock is set by exactly the effective chargebacks and is never cleared. |
| Ledger.ClientAccount.constructor | src/lib.rs:137-146 | A new account has zero balances, no history and an empty log, and is unlocked. |
| Ledger.ClientAccount.AddTransaction | src/lib.rs:149-188 | The in-place update leaves exactly the account `ApplyTransaction` computes. On a mismatch it returns `Err` with the transaction and changes nothing. |
| Ledger.ClientAccount.AddDisputeAction | src/lib.rs:191-299 | The fifteen-arm in-place update leaves exactly the account `ApplyDisputeAction` computes. On a mismatch it returns `Err` with the action and changes nothing. |
| Ledger.ClientAccount.Total | src/lib.rs:317-319 | Total funds are available plus held. |
| Engine.Lookup | src/lib.rs:340-343 | The routed account is the client's own, or a new zero-balance, unlocked account for a new client. |
| Engine.RouteTransaction | src/lib.rs:339-350 | The client always ends up with an account and nobody else is added. The routed account never reports a mismatch, so the `expect` cannot fire. Only the routed account changes. |
| Engine.RouteDisputeAction | src/lib.rs:352-363 | The same routing for dispute actions; even a no-op action opens an account. |
| Engine.PaymentEngine.constructor | src/lib.rs:330-336 | The engine starts with no accounts. |
| Engine.PaymentEngine.AddTransaction | src/lib.rs:339-350 | The client's account exists afterwards. It is freshly allocated if the client is new; otherwise the same object is updated in place. Its value becomes `ApplyTransaction` of its old value or of a new account. Every other client keeps the same account object with the same contents. |
| Engine.PaymentEngine.AddDisputeAction | src/lib.rs:352-363 | The same for dispute actions, through `ApplyDisputeAction`. |
| Engine.PaymentEngine.GetClientState | src/lib.rs:369-371 | Some account iff the client has one, and then it is that client's. |
| Engine.PaymentEngine.GetAllClientStates | src/lib.rs:365-367 | Exactly one account per registered client: as many accounts as clients, all of them and nothing else. |
| HeldFunds.NewAccountHeldMatches | src/lib.rs:137-146 | A new account holds nothing and has no disputed deposits. |
| HeldFunds.TransactionKeepsHeld | src/lib.rs:149-188 | A transaction under a fresh id keeps `held` equal to the sum of the disputed deposits. |
| HeldFunds.DisputeActionKeepsHeld | src/lib.rs:217-296 | Every dispute action keeps `held` equal to the sum of the disputed deposits. |
| HeldFunds.HeldNonNegative | src/lib.rs:219-256 | With that invariant and non-negative amounts, `held` is never negative. |
| HeldFunds.TransactionKeepsCover | src/lib.rs:149-188 | On an account whose recorded amounts are non-negative, any transaction keeps `held` at least the sum of the disputed deposits on record, even one that reuses an id and overwrites an entry. |
| HeldFunds.DisputeActionKeepsCover | src/lib.rs:217-296 | Every dispute action keeps `held` at least the sum of the disputed deposits on record. |
| HeldFunds.CoveredHeldNonNegative | src/lib.rs:219-278 | With that cover and non-negative amounts, `held` is never negative. |
| Replay.Route | src/lib.rs:339-363 | Routing any event leaves the registry well keyed and adds at most the event's client. |
| Replay.Step | src/lib.rs:149-197 | An account keeps its id, and another client's event leaves it unchanged. |
| Replay.RunOpensAccounts | src/lib.rs:339-363 | After a stream there are accounts for exactly the earlier clients and every client the stream named. |
| Replay.RunIsPerClient | src/lib.rs:339-363 | A client's account after a stream equals its own account fed the whole stream, in which other clients' events have no effect. |
| Replay.RunLeavesOthers | src/lib.rs:339-363 | A client the stream never names keeps its account unchanged. |
| Replay.FeedOthers | src/lib.rs:149-197 | Events of other clients leave an account as it was. |
| Replay.LockIsPermanent | src/lib.rs:154-203 | Once locked, an account stays locked and its `available` and `held` never change. |
| Replay.LockedClientIsFrozen | src/lib.rs:154-203 | The same for a locked client inside the engine, whatever events follow. |
| Replay.FeedKeepsHeld | src/lib.rs:149-299 | With never-reused ids, the held invariant survives any stream. |
| Replay.RunKeepsHeld | src/lib.rs:339-363 | With ids never reused across the registry, every account keeps the held invariant after any stream. |
| Replay.FeedKeepsAmounts | src/lib.rs:154-184 | The history only records the stream's own transactions, so it keeps non-negative amounts when the stream's amounts are non-negative. |
| Replay.FeedKeepsCover | src/lib.rs:149-299 | With non-negative amounts, `held` keeps covering the disputed deposits through any stream, reused ids included. |
| Replay.RunHeldNonNegative | src/lib.rs:339-363 | After any stream with non-negative amounts, reused transaction ids included, every account in the registry has `held >= 0`. It still covers its disputed deposits, so the fact carries on to the next stream. |
| Replay.RepeatIsNoOp | src/lib.rs:231-269 | On an unlocked account, a repeated dispute or resolve does nothing the first one did not. |
| Replay.EffectiveActionBalances | src/lib.rs:218-283 | The per-case effects:<br>- disputing a deposit moves its amount from available to held, keeping the total;<br>- disputing a withdrawal changes no balance;<br>- resolving a deposit moves it back;<br>- resolving a withdrawal credits available;<br>- a chargeback of a deposit removes it from held and locks;<br>- a chargeback of a withdrawal only locks. |
| Replay.DisputeCanOverdraw | src/lib.rs:218-223 | Deposit 2, withdraw 2, dispute the deposit: available ends at -2, held at 2, total at 0. |
| Replay.WithdrawalWithoutFunds | src/lib.rs:405-420 | An uncovered withdrawal opens the account, leaves it at 0 and is recorded Rejected. |
| Replay.WithdrawalAfterDepositForSame | src/lib.rs:423-443 | Withdrawing the whole deposit leaves 0 and is Accepted. |
| Replay.WithdrawalAfterDepositForLess | src/lib.rs:446-466 | Depositing 2 and withdrawing 1 leaves 1 available. |
| Replay.ChargebackLocks | src/lib.rs:495-519 | Deposit, dispute, chargeback: the account is locked with total 0. |
| Replay.DisputeThenResolve | src/lib.rs:522-546 | Deposit, dispute, resolve: unlocked, with total and available back at the deposit. |
| Replay.DoubleDisputeHoldsOnce | src/lib.rs:549-577 | A second dispute holds nothing more. |
| Replay.DisputingRejectedWithdrawal | src/lib.rs:580-608 | Disputing a rejected withdrawal changes nothing and logs nothing. |
| Replay.MultipleClients | src/lib.rs:611-648 | Two clients' interleaved events end at 10 and 3 available. |
| Replay.DisputingAnotherClientsTransaction | src/lib.rs:651-685 | A dispute naming another client's transaction leaves the owner alone and opens an empty account for the disputing client. |
| Replay.DisputedWithdrawalResolved | src/lib.rs:688-721 | Resolving a disputed withdrawal credits it back: 2 available, 0 held, unlocked. |
| Replay.DisputedWithdrawalChargedBack | src/lib.rs:724-757 | Charging back a disputed withdrawal keeps the debit and locks: 1 available, 0 held. |
| Scenarios.NoTransactions | src/lib.rs:381-384 | A new engine object has no accounts. |
| Scenarios.SimpleDeposit | src/lib.rs:387-402 | On the engine object: one deposit gives one account with the deposit available. |
| Scenarios.DisputeAfterDeposit | src/lib.rs:469-492 | On the engine object: one account, and the dispute moves the deposit to held, leaving total 2 and available 0. |
| Scenarios.DisputeForAnotherClient | src/lib.rs:651-685 | On the engine object: two accounts; the owner is untouched and the disputing client's account is empty and unlocked. |

## Left out

- `src/main.rs` is not part of this model. It handles command-line arguments, CSV reading and writing, whitespace trimming and decimal formatting, which are all I/O.
- Decimal precision, scale and overflow panics of `rust_decimal` are not modelled. Money is an unbounded exact `real`.
- Iteration order of `get_all_client_states` is left out, because the hash map gives none. The model returns the set of account objects.
- The `Debug` and `Clone` derives and `forbid(unsafe_code)` are left out. They have no behaviour to model.
- The enum accessors (`get_client_id`, `get_transaction_id`, `get_referenced_transaction_id`) are the datatypes' shared destructors `client`, `transactionId` and `referencedTransactionId`, not separate members.
- Engine.PaymentEngine.AddTransaction: the new registry value is stated client by client, not as one equation with `RouteTransaction` over the whole map. The per-client clauses are the same facts `RouteTransaction` guarantees.
- Engine.PaymentEngine.AddDisputeAction: stated client by client in the same way, matching `RouteDisputeAction`.
- The stream functions in `Replay.dfy` stand in for the caller's loop over input records. That loop lives in `src/main.rs`.
