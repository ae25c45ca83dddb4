/** ClientAccount: one client's ledger, updated in place. Each mutating
    method is proved to agree with the reference semantics in AccountSpec. */
module Ledger {
  import opened Types
  import opened AccountSpec

  class ClientAccount {
    const id: ClientId
    /** Every transaction seen, by id, with its dispute-lifecycle state. */
    var transactionHistory: map<TxId, Record>
    /** Every dispute action that was logged, in arrival order. */
    var disputeHistory: seq<DisputeAction>
    var available: Money
    var held: Money
    var locked: bool

    /** The value of this account. */
    function Value(): Account
      reads this
    {
      Account(id, transactionHistory, disputeHistory, available, held, locked)
    }

    constructor (id: ClientId)
      ensures Value() == NewAccount(id)
    {
      this.id := id;
      transactionHistory := map[];
      disputeHistory := [];
      available := 0.0;
      held := 0.0;
      locked := false;
    }

    /** Applies a deposit or a withdrawal; fails, returning the transaction,
        when it belongs to another client. */
    method AddTransaction(transaction: Transaction) returns (r: Result<(), Transaction>)
      modifies this
      ensures var s := ApplyTransaction(old(Value()), transaction);
        && (s.Err? ==> r == Err(transaction) && Value() == old(Value()))
        && (s.Ok? ==> r == Ok(()) && Value() == s.value)
    {
      if transaction.client != id {
        return Err(transaction);
      }

      if locked {
        // a locked account records the transaction but lets it have no effect
        transactionHistory := transactionHistory[transaction.transactionId := NewRecord(transaction, false)];
        return Ok(());
      }

      match transaction {
        case Deposit(_, _, amount) =>
          available := available + amount;
          transactionHistory := transactionHistory[transaction.transactionId := NewRecord(transaction, true)];
        case Withdrawal(_, _, amount) =>
          if WithdrawalAmountAllowed(amount) {
            available := available - amount;
            transactionHistory := transactionHistory[transaction.transactionId := NewRecord(transaction, true)];
          } else {
            transactionHistory := transactionHistory[transaction.transactionId := NewRecord(transaction, false)];
          }
      }
      return Ok(());
    }

    /** Drives the dispute state machine of the referenced transaction; fails,
        returning the action, when it belongs to another client. */
    method AddDisputeAction(action: DisputeAction) returns (r: Result<(), DisputeAction>)
      modifies this
      ensures var s := ApplyDisputeAction(old(Value()), action);
        && (s.Err? ==> r == Err(action) && Value() == old(Value()))
        && (s.Ok? ==> r == Ok(()) && Value() == s.value)
    {
      if action.client != id {
        return Err(action);
      }

      if locked {
        // a locked account logs the action but lets it have no effect
        disputeHistory := disputeHistory + [action];
        return Ok(());
      }

      var ref := action.referencedTransactionId;
      if ref !in transactionHistory {
        // unknown here (or another client's): nothing is stored
        return Ok(());
      }
      var record := transactionHistory[ref];

      match (record.state, action) {
        case (Accepted, Dispute(_, _)) =>
          match record.transaction {
            case Deposit(_, _, amount) =>
              available := available - amount;
              held := held + amount;
            case Withdrawal(_, _, _) =>
              // nothing moves until the dispute is settled
          }
          disputeHistory := disputeHistory + [action];
          transactionHistory := transactionHistory[ref := record.(state := Disputed)];
        case (Rejected, Dispute(_, _)) =>
        case (Disputed, Dispute(_, _)) =>
        case (Resolved, Dispute(_, _)) =>
        case (Chargebacked, Dispute(_, _)) =>

        case (Disputed, Resolve(_, _)) =>
          match record.transaction {
            case Deposit(_, _, amount) =>
              available := available + amount;
              held := held - amount;
            case Withdrawal(_, _, amount) =>
              available := available + amount;
          }
          disputeHistory := disputeHistory + [action];
          transactionHistory := transactionHistory[ref := record.(state := Resolved)];
        case (Accepted, Resolve(_, _)) =>
        case (Rejected, Resolve(_, _)) =>
        case (Resolved, Resolve(_, _)) =>
        case (Chargebacked, Resolve(_, _)) =>

        case (Disputed, Chargeback(_, _)) =>
          match record.transaction {
            case Deposit(_, _, amount) =>
              held := held - amount;
            case Withdrawal(_, _, _) =>
              // the withdrawal's debit stands
          }
          locked := true;
          disputeHistory := disputeHistory + [action];
          transactionHistory := transactionHistory[ref := record.(state := Chargebacked)];
        case (Accepted, Chargeback(_, _)) =>
        case (Rejected, Chargeback(_, _)) =>
        case (Resolved, Chargeback(_, _)) =>
        case (Chargebacked, Chargeback(_, _)) =>
      }
      return Ok(());
    }

    /** A withdrawal of `amount` is allowed exactly when it is covered by the
        available funds. */
    function WithdrawalAmountAllowed(amount: Money): bool
      reads this
    {
      available >= amount
    }

    function Id(): ClientId {
      id
    }

    function Available(): Money
      reads this
    {
      available
    }

    function Held(): Money
      reads this
    {
      held
    }

    function Total(): (r: Money)
      reads this
      ensures r == Value().Total()
    {
      available + held
    }

    function Locked(): bool
      reads this
    {
      locked
    }
  }
}
