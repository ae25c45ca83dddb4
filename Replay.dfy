/** Streams of events fed to the engine: what a whole run does to each client,
    which facts survive every later event, and the scenarios of the unit
    tests replayed on the model. */
module Replay {
  import opened Types
  import opened AccountSpec
  import opened Engine
  import opened HeldFunds

  /** One input event: a deposit or withdrawal, or a dispute action. */
  datatype Event = Tx(transaction: Transaction) | Action(action: DisputeAction)

  /** The client an event names. */
  function ClientOf(e: Event): ClientId {
    match e
    case Tx(t) => t.client
    case Action(d) => d.client
  }

  /** The clients named anywhere in a stream. */
  function Clients(evs: seq<Event>): (r: set<ClientId>)
    ensures forall i :: 0 <= i < |evs| ==> ClientOf(evs[i]) in r
    ensures forall c :: c in r ==> exists i :: 0 <= i < |evs| && ClientOf(evs[i]) == c
  {
    if evs == [] then {} else {ClientOf(evs[0])} + Clients(evs[1..])
  }

  /** The engine consuming one event. */
  function Route(m: Ledgers, e: Event): (r: Ledgers)
    requires WellKeyed(m)
    ensures WellKeyed(r) && r.Keys == m.Keys + {ClientOf(e)}
  {
    match e
    case Tx(t) => RouteTransaction(m, t)
    case Action(d) => RouteDisputeAction(m, d)
  }

  /** The engine consuming a stream, one event after the other. */
  function Run(m: Ledgers, evs: seq<Event>): (r: Ledgers)
    requires WellKeyed(m)
    ensures WellKeyed(r)
    decreases |evs|
  {
    if evs == [] then m else Run(Route(m, evs[0]), evs[1..])
  }

  /** One account consuming one event, as the account object does: its own
      events are applied, another client's event is refused and changes
      nothing. */
  function Step(a: Account, e: Event): (r: Account)
    ensures r.id == a.id
    ensures ClientOf(e) != a.id ==> r == a
  {
    match e
    case Tx(t) =>
      var s := ApplyTransaction(a, t);
      if s.Ok? then s.value else a
    case Action(d) =>
      var s := ApplyDisputeAction(a, d);
      if s.Ok? then s.value else a
  }

  /** One account consuming a whole stream, its own events and others'. */
  function Feed(a: Account, evs: seq<Event>): (r: Account)
    ensures r.id == a.id
    decreases |evs|
  {
    if evs == [] then a else Feed(Step(a, evs[0]), evs[1..])
  }

  /** After a run there is an account for exactly the clients known before
      and the clients the stream named, even those whose every event was a
      no-op. */
  lemma {:induction false} RunOpensAccounts(m: Ledgers, evs: seq<Event>)
    requires WellKeyed(m)
    ensures Run(m, evs).Keys == m.Keys + Clients(evs)
    decreases |evs|
  {
    if evs != [] {
      RunOpensAccounts(Route(m, evs[0]), evs[1..]);
    }
  }

  /** Clients are isolated: a client's account after a run is what its
      account (a new one for a new client) becomes when fed the whole stream,
      in which every other client's event is refused without effect. */
  lemma {:induction false} RunIsPerClient(m: Ledgers, evs: seq<Event>, c: ClientId)
    requires WellKeyed(m)
    requires c in Run(m, evs)
    ensures Run(m, evs)[c] == Feed(Lookup(m, c), evs)
    decreases |evs|
  {
    if evs != [] {
      var m' := Route(m, evs[0]);
      RunIsPerClient(m', evs[1..], c);
      assert Lookup(m', c) == Step(Lookup(m, c), evs[0]);
    }
  }

  /** A client no event names keeps its account exactly as it was. */
  lemma RunLeavesOthers(m: Ledgers, evs: seq<Event>, c: ClientId)
    requires WellKeyed(m)
    requires c in m && c !in Clients(evs)
    ensures c in Run(m, evs) && Run(m, evs)[c] == m[c]
  {
    RunOpensAccounts(m, evs);
    RunIsPerClient(m, evs, c);
    FeedOthers(m[c], evs);
  }

  /** Events of other clients leave an account as it was. */
  lemma {:induction false} FeedOthers(a: Account, evs: seq<Event>)
    requires a.id !in Clients(evs)
    ensures Feed(a, evs) == a
    decreases |evs|
  {
    if evs != [] {
      FeedOthers(a, evs[1..]);
    }
  }

  /** Once locked, an account stays locked and its balances never move again. */
  lemma {:induction false} LockIsPermanent(a: Account, evs: seq<Event>)
    requires a.locked
    ensures Feed(a, evs).locked
    ensures Feed(a, evs).available == a.available && Feed(a, evs).held == a.held
    decreases |evs|
  {
    if evs != [] {
      var b := Step(a, evs[0]);
      if evs[0].Tx? && ClientOf(evs[0]) == a.id {
        TransactionEffect(a, evs[0].transaction);
      }
      LockIsPermanent(b, evs[1..]);
    }
  }

  /** The same, for a client inside the engine. */
  lemma LockedClientIsFrozen(m: Ledgers, evs: seq<Event>, c: ClientId)
    requires WellKeyed(m)
    requires c in m && m[c].locked
    ensures c in Run(m, evs)
    ensures Run(m, evs)[c].locked
    ensures Run(m, evs)[c].available == m[c].available && Run(m, evs)[c].held == m[c].held
  {
    RunOpensAccounts(m, evs);
    RunIsPerClient(m, evs, c);
    LockIsPermanent(m[c], evs);
  }

  /** No transaction id of the stream is in `used` or occurs twice. */
  predicate IdsFresh(used: set<TxId>, evs: seq<Event>)
    decreases |evs|
  {
    evs == [] ||
    match evs[0]
    case Tx(t) => t.transactionId !in used && IdsFresh(used + {t.transactionId}, evs[1..])
    case Action(_) => IdsFresh(used, evs[1..])
  }

  /** Under never-reused transaction ids, an account's `held` stays the sum
      of its disputed deposits, whatever the stream. */
  lemma {:induction false} FeedKeepsHeld(a: Account, evs: seq<Event>, used: set<TxId>)
    requires HeldMatches(a)
    requires a.history.Keys <= used
    requires IdsFresh(used, evs)
    ensures HeldMatches(Feed(a, evs))
    decreases |evs|
  {
    if evs != [] {
      var b := Step(a, evs[0]);
      match evs[0]
      case Tx(t) =>
        if t.client == a.id {
          TransactionEffect(a, t);
          TransactionKeepsHeld(a, t);
        }
        assert b.history.Keys <= used + {t.transactionId};
        FeedKeepsHeld(b, evs[1..], used + {t.transactionId});
      case Action(d) =>
        if d.client == a.id {
          DisputeActionKeepsHeld(a, d);
        }
        assert b.history.Keys == a.history.Keys;
        FeedKeepsHeld(b, evs[1..], used);
    }
  }

  /** The engine-wide invariant: if ids are never reused across the
      registry, every account's `held` is the sum of its disputed deposits
      after any run. */
  lemma RunKeepsHeld(m: Ledgers, evs: seq<Event>, used: set<TxId>)
    requires WellKeyed(m)
    requires forall c :: c in m ==> HeldMatches(m[c]) && m[c].history.Keys <= used
    requires IdsFresh(used, evs)
    ensures forall c :: c in Run(m, evs) ==> HeldMatches(Run(m, evs)[c])
  {
    forall c | c in Run(m, evs)
      ensures HeldMatches(Run(m, evs)[c])
    {
      RunIsPerClient(m, evs, c);
      NewAccountHeldMatches(c);
      FeedKeepsHeld(Lookup(m, c), evs, used);
    }
  }

  /** Every deposit and withdrawal of the stream has a non-negative amount. */
  predicate StreamAmountsNonNegative(evs: seq<Event>) {
    forall i :: 0 <= i < |evs| && evs[i].Tx? ==> evs[i].transaction.amount >= 0.0
  }

  /** The history only ever records the stream's own transactions, so it
      keeps non-negative amounts when the stream has them. */
  lemma {:induction false} FeedKeepsAmounts(a: Account, evs: seq<Event>)
    requires AmountsNonNegative(a)
    requires StreamAmountsNonNegative(evs)
    ensures AmountsNonNegative(Feed(a, evs))
    decreases |evs|
  {
    if evs != [] {
      var b := Step(a, evs[0]);
      if evs[0].Tx? && ClientOf(evs[0]) == a.id {
        TransactionEffect(a, evs[0].transaction);
      }
      assert AmountsNonNegative(b);
      FeedKeepsAmounts(b, evs[1..]);
    }
  }

  /** With non-negative amounts, `held` keeps covering the disputed
      deposits on record, whatever the stream, reused ids included. */
  lemma {:induction false} FeedKeepsCover(a: Account, evs: seq<Event>)
    requires HeldCovers(a) && AmountsNonNegative(a)
    requires StreamAmountsNonNegative(evs)
    ensures HeldCovers(Feed(a, evs))
    decreases |evs|
  {
    if evs != [] {
      var b := Step(a, evs[0]);
      if evs[0].Tx? && ClientOf(evs[0]) == a.id {
        TransactionEffect(a, evs[0].transaction);
        TransactionKeepsCover(a, evs[0].transaction);
      } else if evs[0].Action? && ClientOf(evs[0]) == a.id {
        DisputeActionKeepsCover(a, evs[0].action);
      }
      assert AmountsNonNegative(b);
      FeedKeepsCover(b, evs[1..]);
    }
  }

  /** `held` is never negative: after any stream with non-negative amounts,
      whether or not it reuses transaction ids, every account of the
      registry holds a non-negative amount, and the invariant behind it
      carries on to the next stream. */
  lemma RunHeldNonNegative(m: Ledgers, evs: seq<Event>)
    requires WellKeyed(m)
    requires forall c :: c in m ==> HeldCovers(m[c]) && AmountsNonNegative(m[c])
    requires StreamAmountsNonNegative(evs)
    ensures forall c :: c in Run(m, evs) ==>
      var a := Run(m, evs)[c];
      HeldCovers(a) && AmountsNonNegative(a) && a.held >= 0.0
  {
    forall c | c in Run(m, evs)
      ensures var a := Run(m, evs)[c];
        HeldCovers(a) && AmountsNonNegative(a) && a.held >= 0.0
    {
      RunIsPerClient(m, evs, c);
      FeedKeepsAmounts(Lookup(m, c), evs);
      FeedKeepsCover(Lookup(m, c), evs);
      CoveredHeldNonNegative(Run(m, evs)[c]);
    }
  }

  /** Disputing twice holds the funds once; resolving twice refunds once. */
  lemma RepeatIsNoOp(a: Account, d: DisputeAction)
    requires d.client == a.id && !a.locked && !d.Chargeback?
    ensures var once := ApplyDisputeAction(a, d).value;
      ApplyDisputeAction(once, d).value == once
  {
    var once := ApplyDisputeAction(a, d).value;
    if Effective(a, d) {
      assert !Effective(once, d);
    }
  }

  /** What each effective action does to the balances, case by case. */
  lemma EffectiveActionBalances(a: Account, d: DisputeAction)
    requires d.client == a.id && Effective(a, d)
    ensures var t := a.history[d.referencedTransactionId].transaction;
      var b := ApplyDisputeAction(a, d).value;
      && (d.Dispute? && t.Deposit? ==>
            b.available == a.available - t.amount && b.held == a.held + t.amount && b.Total() == a.Total())
      && (d.Dispute? && t.Withdrawal? ==> b.available == a.available && b.held == a.held)
      && (d.Resolve? && t.Deposit? ==>
            b.available == a.available + t.amount && b.held == a.held - t.amount && b.Total() == a.Total())
      && (d.Resolve? && t.Withdrawal? ==> b.available == a.available + t.amount && b.held == a.held)
      && (d.Chargeback? && t.Deposit? ==> b.available == a.available && b.held == a.held - t.amount && b.locked)
      && (d.Chargeback? && t.Withdrawal? ==> b.available == a.available && b.held == a.held && b.locked)
  {
  }

  /** `available` is not kept non-negative: disputing a deposit whose funds
      were already withdrawn overdraws it. */
  lemma DisputeCanOverdraw()
    ensures var r := Run(map[], [
        Tx(Deposit(1, 1, 2.0)),
        Tx(Withdrawal(1, 2, 2.0)),
        Action(Dispute(1, 1))]);
      1 in r && r[1].available == -2.0 && r[1].held == 2.0 && r[1].Total() == 0.0
  {
  }

  // Scenarios of the unit tests, all from an empty engine.

  lemma WithdrawalAfterDepositForSame()
    ensures var r := Run(map[], [Tx(Deposit(1, 1, 2.0)), Tx(Withdrawal(1, 2, 2.0))]);
      r.Keys == {1} && r[1].available == 0.0 && r[1].history[2].state == Accepted
  {
  }

  lemma WithdrawalAfterDepositForLess()
    ensures var r := Run(map[], [Tx(Deposit(1, 1, 2.0)), Tx(Withdrawal(1, 2, 1.0))]);
      r.Keys == {1} && r[1].available == 1.0
  {
  }

  lemma WithdrawalWithoutFunds()
    ensures var r := Run(map[], [Tx(Withdrawal(1, 1, 2.0))]);
      r.Keys == {1} && r[1].available == 0.0 && r[1].history[1].state == Rejected
  {
  }

  lemma ChargebackLocks()
    ensures var r := Run(map[], [
        Tx(Deposit(1, 1, 2.0)),
        Action(Dispute(1, 1)),
        Action(Chargeback(1, 1))]);
      r.Keys == {1} && r[1].locked && r[1].Total() == 0.0
  {
  }

  lemma DisputeThenResolve()
    ensures var r := Run(map[], [
        Tx(Deposit(1, 1, 2.0)),
        Action(Dispute(1, 1)),
        Action(Resolve(1, 1))]);
      r.Keys == {1} && !r[1].locked && r[1].Total() == 2.0 && r[1].available == 2.0
  {
  }

  lemma DoubleDisputeHoldsOnce()
    ensures var r := Run(map[], [
        Tx(Deposit(1, 1, 2.0)),
        Action(Dispute(1, 1)),
        Action(Dispute(1, 1))]);
      r.Keys == {1} && r[1].Total() == 2.0 && r[1].available == 0.0 && r[1].held == 2.0
  {
  }

  lemma DisputingRejectedWithdrawal()
    ensures var r := Run(map[], [
        Tx(Deposit(1, 1, 2.0)),
        Tx(Withdrawal(1, 2, 3.0)),
        Action(Dispute(1, 2))]);
      r.Keys == {1} && r[1].available == 2.0 && r[1].Total() == 2.0 && r[1].disputes == []
  {
  }

  /** Written as the five calls it makes, one after the other. */
  lemma MultipleClients()
    ensures var r := Route(Route(Route(Route(Route(map[],
        Tx(Deposit(1, 1, 2.0))),
        Tx(Deposit(2, 2, 4.0))),
        Tx(Deposit(1, 3, 9.0))),
        Tx(Withdrawal(1, 4, 1.0))),
        Tx(Withdrawal(2, 5, 1.0)));
      r.Keys == {1, 2} && r[1].available == 10.0 && r[2].available == 3.0
  {
  }

  lemma DisputingAnotherClientsTransaction()
    ensures var r := Run(map[], [Tx(Deposit(1, 1, 2.0)), Action(Dispute(2, 1))]);
      && r.Keys == {1, 2}
      && r[1].available == 2.0 && r[1].held == 0.0 && !r[1].locked
      && r[2] == NewAccount(2)
  {
  }

  lemma DisputedWithdrawalResolved()
    ensures var r := Run(map[], [
        Tx(Deposit(1, 1, 2.0)),
        Tx(Withdrawal(1, 2, 1.0)),
        Action(Dispute(1, 2)),
        Action(Resolve(1, 2))]);
      r[1].held == 0.0 && r[1].available == 2.0 && !r[1].locked
  {
  }

  lemma DisputedWithdrawalChargedBack()
    ensures var r := Run(map[], [
        Tx(Deposit(1, 1, 2.0)),
        Tx(Withdrawal(1, 2, 1.0)),
        Action(Dispute(1, 2)),
        Action(Chargeback(1, 2))]);
      r[1].held == 0.0 && r[1].available == 1.0 && r[1].locked
  {
  }
}
