/** Unit-test scenarios driven through the engine object itself. */
module Scenarios {
  import opened Types
  import opened Ledger
  import opened Engine

  /** A new engine has no accounts. */
  method NoTransactions() returns (count: nat)
    ensures count == 0
  {
    var engine := new PaymentEngine();
    count := |engine.GetAllClientStates()|;
  }

  /** One deposit opens one account whose available funds are the deposit. */
  method SimpleDeposit() returns (count: nat, available: Money)
    ensures count == 1 && available == 2.0
  {
    var engine := new PaymentEngine();
    engine.AddTransaction(Deposit(1, 1, 2.0));
    count := |engine.GetAllClientStates()|;
    var account := engine.GetClientState(1);
    available := account.value.Available();
  }

  /** Disputing a deposit moves it to held; total funds stay the same. */
  method DisputeAfterDeposit() returns (count: nat, total: Money, available: Money, held: Money)
    ensures count == 1
    ensures total == 2.0 && available == 0.0 && held == 2.0
  {
    var engine := new PaymentEngine();
    engine.AddTransaction(Deposit(1, 1, 2.0));
    engine.AddDisputeAction(Dispute(1, 1));
    count := |engine.GetAllClientStates()|;
    var account := engine.GetClientState(1);
    total := account.value.Total();
    available := account.value.Available();
    held := account.value.Held();
  }

  /** A dispute naming another client's transaction changes nothing for the
      owner, yet opens an empty, unlocked account for the disputing client. */
  method DisputeForAnotherClient() returns (count: nat, owner: Account, other: Account)
    ensures count == 2
    ensures owner.available == 2.0 && owner.held == 0.0 && !owner.locked
    ensures other.available == 0.0 && other.held == 0.0 && !other.locked
  {
    var engine := new PaymentEngine();
    engine.AddTransaction(Deposit(1, 1, 2.0));
    engine.AddDisputeAction(Dispute(2, 1));
    count := |engine.GetAllClientStates()|;
    var first := engine.GetClientState(1);
    var second := engine.GetClientState(2);
    owner := first.value.Value();
    other := second.value.Value();
  }
}
