/** Reference semantics of one client account, on `Account` values.

    The dispute state machine is given here as a transition table with only
    its three effective entries; the class in ClientAccount.dfy spells out all
    fifteen (state, action) pairs and is proved to agree with it. */
module AccountSpec {
  import opened Types

  /** The state a dispute action moves a record to, or None when the
      (state, action) pair is a no-op. */
  function NextState(s: TransactionState, d: DisputeAction): (r: Option<TransactionState>)
    // only Accepted and Disputed records ever move, and always to a new state
    ensures r.Some? ==> (s.Accepted? || s.Disputed?) && r.value != s
    // Rejected, Resolved and Chargebacked are terminal
    ensures (s.Rejected? || s.Resolved? || s.Chargebacked?) ==> r.None?
    // each action kind has exactly one source state and one target state
    ensures r.Some? && d.Dispute? ==> s.Accepted? && r.value.Disputed?
    ensures r.Some? && d.Resolve? ==> s.Disputed? && r.value.Resolved?
    ensures r.Some? && d.Chargeback? ==> s.Disputed? && r.value.Chargebacked?
    ensures s.Accepted? && d.Dispute? ==> r.Some?
    ensures s.Disputed? && !d.Dispute? ==> r.Some?
  {
    match (s, d)
    case (Accepted, Dispute(_, _)) => Some(Disputed)
    case (Disputed, Resolve(_, _)) => Some(Resolved)
    case (Disputed, Chargeback(_, _)) => Some(Chargebacked)
    case _ => None
  }

  /** Change to `available` made by an effective action on `t`. */
  function AvailableDelta(d: DisputeAction, t: Transaction): Money {
    match (d, t)
    case (Dispute(_, _), Deposit(_, _, amount)) => -amount
    case (Resolve(_, _), _) => t.amount
    case _ => 0.0
  }

  /** Change to `held` made by an effective action on `t`. */
  function HeldDelta(d: DisputeAction, t: Transaction): Money {
    match (d, t)
    case (Dispute(_, _), Deposit(_, _, amount)) => amount
    case (Resolve(_, _), Deposit(_, _, amount)) => -amount
    case (Chargeback(_, _), Deposit(_, _, amount)) => -amount
    case _ => 0.0
  }

  /** Whether a transaction applied to `a` takes effect. */
  predicate Admits(a: Account, t: Transaction) {
    !a.locked && (t.Deposit? || a.available >= t.amount)
  }

  /** ClientAccount::add_transaction on values. */
  function ApplyTransaction(a: Account, t: Transaction): (r: Result<Account, Transaction>)
    // the only failure is a client-id mismatch, and it hands the event back
    ensures r.Err? <==> t.client != a.id
    ensures r.Err? ==> r.error == t
  {
    if t.client != a.id then Err(t)
    else if a.locked then
      Ok(a.(history := a.history[t.transactionId := NewRecord(t, false)]))
    else
      match t
      case Deposit(_, id, amount) =>
        Ok(a.(available := a.available + amount, history := a.history[id := NewRecord(t, true)]))
      case Withdrawal(_, id, amount) =>
        if a.available >= amount then
          Ok(a.(available := a.available - amount, history := a.history[id := NewRecord(t, true)]))
        else
          Ok(a.(history := a.history[id := NewRecord(t, false)]))
  }

  /** What add_transaction does to an account the transaction belongs to. */
  lemma TransactionEffect(a: Account, t: Transaction)
    requires t.client == a.id
    ensures ApplyTransaction(a, t).Ok?
    ensures var b := ApplyTransaction(a, t).value;
      // exactly one history entry is written, under the transaction's own id
      && t.transactionId in b.history
      && b.history == a.history[t.transactionId := b.history[t.transactionId]]
      && b.history[t.transactionId].transaction == t
      // the entry is Accepted exactly when the transaction takes effect
      && (b.history[t.transactionId].state.Accepted? <==> Admits(a, t))
      && (b.history[t.transactionId].state.Rejected? <==> !Admits(a, t))
      // a deposit on an unlocked account credits available
      && (!a.locked && t.Deposit? ==> b.available == a.available + t.amount)
      // a withdrawal is all or nothing
      && (!a.locked && t.Withdrawal? ==>
            b.available == if a.available >= t.amount then a.available - t.amount else a.available)
      // a locked account only records the transaction as Rejected
      && (a.locked ==> b.available == a.available)
      // nothing else moves
      && b.id == a.id && b.held == a.held && b.locked == a.locked && b.disputes == a.disputes
  {
  }

  /** Whether `d` causes a transition on the unlocked account `a`. */
  predicate Effective(a: Account, d: DisputeAction) {
    !a.locked && d.referencedTransactionId in a.history
    && NextState(a.history[d.referencedTransactionId].state, d).Some?
  }

  /** ClientAccount::add_dispute_action on values. */
  function ApplyDisputeAction(a: Account, d: DisputeAction): (r: Result<Account, DisputeAction>)
    // the only failure is a client-id mismatch, and it hands the event back
    ensures r.Err? <==> d.client != a.id
    ensures r.Err? ==> r.error == d
    ensures r.Ok? ==> r.value.id == a.id
    // no entry is added or removed, and only the referenced one can change,
    // and then only in its state
    ensures r.Ok? && d.referencedTransactionId !in a.history ==> r.value.history == a.history
    ensures r.Ok? && d.referencedTransactionId in a.history ==>
      var k := d.referencedTransactionId;
      && k in r.value.history
      && r.value.history == a.history[k := r.value.history[k]]
      && r.value.history[k].transaction == a.history[k].transaction
    // the action is logged iff the account is locked or the action is effective
    ensures r.Ok? ==> r.value.disputes == (if a.locked || Effective(a, d) then a.disputes + [d] else a.disputes)
    // a locked account changes nothing but the log
    ensures r.Ok? && a.locked ==> r.value == a.(disputes := a.disputes + [d])
    // an unknown reference or a no-op pair leaves the account exactly as it was
    ensures r.Ok? && !a.locked && !Effective(a, d) ==> r.value == a
    // an effective action moves the record along the table and the balances by the deltas
    ensures r.Ok? && Effective(a, d) ==>
      var rec := a.history[d.referencedTransactionId];
      && r.value.history[d.referencedTransactionId].state == NextState(rec.state, d).value
      && r.value.available == a.available + AvailableDelta(d, rec.transaction)
      && r.value.held == a.held + HeldDelta(d, rec.transaction)
    // the lock is set by exactly the effective chargebacks and never cleared
    ensures r.Ok? ==> r.value.locked == (a.locked || (Effective(a, d) && d.Chargeback?))
  {
    if d.client != a.id then Err(d)
    else if a.locked then Ok(a.(disputes := a.disputes + [d]))
    else if d.referencedTransactionId !in a.history then Ok(a)
    else
      var rec := a.history[d.referencedTransactionId];
      match NextState(rec.state, d)
      case None => Ok(a)
      case Some(s) =>
        Ok(Account(
          a.id,
          a.history[d.referencedTransactionId := rec.(state := s)],
          a.disputes + [d],
          a.available + AvailableDelta(d, rec.transaction),
          a.held + HeldDelta(d, rec.transaction),
          a.locked || d.Chargeback?))
  }
}
