/** Value types of the payment ledger engine: the events a client account
    consumes, the history record kept per transaction, and the value view of
    one client account. */
module Types {

  /** `u16` client identifier. */
  type ClientId = c: int | 0 <= c < 0x1_0000

  /** `u32` transaction identifier. */
  type TxId = t: int | 0 <= t < 0x1_0000_0000

  /** Exact decimal money. A `real` is exact under the only operations the
      engine performs (addition, subtraction, comparison); its sign is not
      restricted, just as a decimal amount is not. */
  type Money = real

  datatype Option<+T> = None | Some(value: T)

  datatype Result<+T, +E> = Ok(value: T) | Err(error: E)

  /** A deposit or a withdrawal. The shared destructors `client` and
      `transactionId` play the part of `get_client_id` and
      `get_transaction_id`. */
  datatype Transaction =
    | Deposit(client: ClientId, transactionId: TxId, amount: Money)
    | Withdrawal(client: ClientId, transactionId: TxId, amount: Money)

  /** A dispute-lifecycle action; it names the transaction it refers to and
      carries no amount of its own. The shared destructors `client` and
      `referencedTransactionId` play the part of `get_client_id` and
      `get_referenced_transaction_id`. */
  datatype DisputeAction =
    | Dispute(client: ClientId, referencedTransactionId: TxId)
    | Resolve(client: ClientId, referencedTransactionId: TxId)
    | Chargeback(client: ClientId, referencedTransactionId: TxId)

  /** Per-transaction state of the dispute state machine. */
  datatype TransactionState = Accepted | Rejected | Disputed | Resolved | Chargebacked

  /** One entry of an account's transaction history. */
  datatype Record = Record(transaction: Transaction, state: TransactionState)

  /** A fresh history entry: Accepted when the transaction took effect,
      Rejected otherwise. */
  function NewRecord(t: Transaction, accepted: bool): (r: Record)
    ensures r.transaction == t
    ensures r.state.Accepted? <==> accepted
    ensures r.state.Rejected? <==> !accepted
    ensures r.state.Accepted? || r.state.Rejected?
  {
    Record(t, if accepted then Accepted else Rejected)
  }

  /** The value of one client account: everything the account object owns. */
  datatype Account = Account(
    id: ClientId,
    history: map<TxId, Record>,
    disputes: seq<DisputeAction>,
    available: Money,
    held: Money,
    locked: bool)
  {
    /** Total funds; derived, never stored. */
    function Total(): Money {
      available + held
    }
  }

  /** A freshly opened account: no history, zero balances, unlocked. */
  function NewAccount(id: ClientId): Account {
    Account(id, map[], [], 0.0, 0.0, false)
  }
}
