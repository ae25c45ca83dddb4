/** The funds on hold are exactly the amounts of the deposits that are
    currently disputed, provided transaction ids are never reused. Whatever
    the ids, while recorded amounts are non-negative the funds on hold are at
    least those amounts. */
module HeldFunds {
  import opened Types
  import opened AccountSpec

  /** What one history entry keeps on hold: a disputed deposit its amount,
      every other entry nothing. */
  function OnHold(r: Record): Money {
    if r.state.Disputed? && r.transaction.Deposit? then r.transaction.amount else 0.0
  }

  /** The sum of OnHold over a history. */
  ghost function HeldSum(h: map<TxId, Record>): Money
    decreases |h|
  {
    if h == map[] then 0.0
    else
      var k :| k in h;
      OnHold(h[k]) + HeldSum(h - {k})
  }

  /** The sum may be split at any key, whichever one its definition picked. */
  lemma {:induction false} HeldSumRemove(h: map<TxId, Record>, k: TxId)
    requires k in h
    ensures HeldSum(h) == OnHold(h[k]) + HeldSum(h - {k})
    decreases |h|
  {
    var j :| j in h && HeldSum(h) == OnHold(h[j]) + HeldSum(h - {j});
    if j != k {
      HeldSumRemove(h - {j}, k);
      HeldSumRemove(h - {k}, j);
      assert h - {j} - {k} == h - {k} - {j};
    }
  }

  /** Overwriting the entry under `k` replaces its share of the sum. */
  lemma HeldSumUpdate(h: map<TxId, Record>, k: TxId, r: Record)
    ensures HeldSum(h[k := r]) == HeldSum(h - {k}) + OnHold(r)
  {
    HeldSumRemove(h[k := r], k);
    assert h[k := r] - {k} == h - {k};
  }

  /** With non-negative amounts nothing is held negatively. */
  lemma {:induction false} HeldSumNonNegative(h: map<TxId, Record>)
    requires forall k :: k in h ==> h[k].transaction.amount >= 0.0
    ensures HeldSum(h) >= 0.0
    decreases |h|
  {
    if h != map[] {
      var k :| k in h;
      HeldSumRemove(h, k);
      HeldSumNonNegative(h - {k});
    }
  }

  /** The account invariant: `held` is the sum of the disputed deposits. */
  ghost predicate HeldMatches(a: Account) {
    a.held == HeldSum(a.history)
  }

  lemma NewAccountHeldMatches(id: ClientId)
    ensures HeldMatches(NewAccount(id))
  {
  }

  /** A transaction under a fresh id keeps the invariant. */
  lemma TransactionKeepsHeld(a: Account, t: Transaction)
    requires HeldMatches(a)
    requires t.client == a.id
    requires t.transactionId !in a.history
    ensures HeldMatches(ApplyTransaction(a, t).value)
  {
    var b := ApplyTransaction(a, t).value;
    var id := t.transactionId;
    assert b.history == a.history[id := b.history[id]];
    HeldSumUpdate(a.history, id, b.history[id]);
    assert a.history - {id} == a.history;
  }

  /** Every dispute action keeps the invariant. */
  lemma DisputeActionKeepsHeld(a: Account, d: DisputeAction)
    requires HeldMatches(a)
    requires d.client == a.id
    ensures HeldMatches(ApplyDisputeAction(a, d).value)
  {
    var b := ApplyDisputeAction(a, d).value;
    if Effective(a, d) {
      var k := d.referencedTransactionId;
      assert b.history == a.history[k := b.history[k]];
      HeldSumRemove(a.history, k);
      HeldSumUpdate(a.history, k, b.history[k]);
    }
  }

  /** Every amount in the account's history is non-negative. */
  ghost predicate AmountsNonNegative(a: Account) {
    forall k :: k in a.history ==> a.history[k].transaction.amount >= 0.0
  }

  /** Consequently `held` is never negative while amounts are not. */
  lemma HeldNonNegative(a: Account)
    requires HeldMatches(a)
    requires AmountsNonNegative(a)
    ensures a.held >= 0.0
  {
    HeldSumNonNegative(a.history);
  }

  /** The weaker invariant that survives reused ids: `held` covers at least
      the disputed deposits still on record. Overwriting an entry replaces
      it with an Accepted or Rejected one, which can only shrink the sum
      while recorded amounts are non-negative. */
  ghost predicate HeldCovers(a: Account) {
    HeldSum(a.history) <= a.held
  }

  /** On an account whose recorded amounts are non-negative, any transaction
      keeps the cover, whether or not its id was used before. */
  lemma TransactionKeepsCover(a: Account, t: Transaction)
    requires HeldCovers(a) && AmountsNonNegative(a)
    requires t.client == a.id
    ensures HeldCovers(ApplyTransaction(a, t).value)
  {
    var b := ApplyTransaction(a, t).value;
    var id := t.transactionId;
    TransactionEffect(a, t);
    HeldSumUpdate(a.history, id, b.history[id]);
    assert b.history == a.history[id := b.history[id]];
    if id in a.history {
      HeldSumRemove(a.history, id);
    } else {
      assert a.history - {id} == a.history;
    }
  }

  /** Every dispute action keeps the cover: the sum moves by exactly the
      amount `held` moves by. */
  lemma DisputeActionKeepsCover(a: Account, d: DisputeAction)
    requires HeldCovers(a)
    requires d.client == a.id
    ensures HeldCovers(ApplyDisputeAction(a, d).value)
  {
    var b := ApplyDisputeAction(a, d).value;
    if Effective(a, d) {
      var k := d.referencedTransactionId;
      assert b.history == a.history[k := b.history[k]];
      HeldSumRemove(a.history, k);
      HeldSumUpdate(a.history, k, b.history[k]);
    }
  }

  /** With the cover and non-negative amounts, `held` is never negative. */
  lemma CoveredHeldNonNegative(a: Account)
    requires HeldCovers(a)
    requires AmountsNonNegative(a)
    ensures a.held >= 0.0
  {
    HeldSumNonNegative(a.history);
  }
}
