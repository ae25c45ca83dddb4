/** PaymentEngine: the registry of client accounts. It routes every event to
    the account of the event's own client, opening that account on first
    sight. */
module Engine {
  import opened Types
  import opened AccountSpec
  import opened Ledger

  /** The registry's value: client id to account value. */
  type Ledgers = map<ClientId, Account>

  /** Every account is filed under its own client id. */
  ghost predicate WellKeyed(m: Ledgers) {
    forall c :: c in m ==> m[c].id == c
  }

  /** The account of `c`, or a fresh one if `c` has none yet. */
  function Lookup(m: Ledgers, c: ClientId): (a: Account)
    requires WellKeyed(m)
    ensures a.id == c
    ensures c in m ==> a == m[c]
    ensures c !in m ==> a == NewAccount(c)
  {
    if c in m then m[c] else NewAccount(c)
  }

  /** PaymentEngine::add_transaction on values. */
  function RouteTransaction(m: Ledgers, t: Transaction): (r: Ledgers)
    requires WellKeyed(m)
    ensures WellKeyed(r)
    // the event's client always ends up with an account, and nobody else is added
    ensures r.Keys == m.Keys + {t.client}
    // the routed account never reports a client mismatch, and receives the event
    ensures ApplyTransaction(Lookup(m, t.client), t).Ok?
    ensures r[t.client] == ApplyTransaction(Lookup(m, t.client), t).value
    // no other client's account is touched
    ensures forall c :: c in m && c != t.client ==> r[c] == m[c]
  {
    m[t.client := ApplyTransaction(Lookup(m, t.client), t).value]
  }

  /** PaymentEngine::add_dispute_action on values. */
  function RouteDisputeAction(m: Ledgers, d: DisputeAction): (r: Ledgers)
    requires WellKeyed(m)
    ensures WellKeyed(r)
    // even a no-op action opens an account for its client
    ensures r.Keys == m.Keys + {d.client}
    ensures ApplyDisputeAction(Lookup(m, d.client), d).Ok?
    ensures r[d.client] == ApplyDisputeAction(Lookup(m, d.client), d).value
    ensures forall c :: c in m && c != d.client ==> r[c] == m[c]
  {
    m[d.client := ApplyDisputeAction(Lookup(m, d.client), d).value]
  }

  class PaymentEngine {
    /** The accounts, by client id. */
    var state: map<ClientId, ClientAccount>

    /** Every account object is filed under its own client id (so no object
        is filed twice). */
    ghost predicate Valid()
      reads this
    {
      forall c :: c in state ==> state[c].id == c
    }

    /** PaymentEngine::default: no accounts. */
    constructor ()
      ensures Valid() && state == map[]
    {
      state := map[];
    }

    /** Routes a transaction to its client's account, opening the account
        first when the client is new. */
    method AddTransaction(transaction: Transaction)
      requires Valid()
      modifies this, state.Values
      ensures Valid()
      // the client's account exists afterwards and nobody else is added
      ensures state.Keys == old(state.Keys) + {transaction.client}
      ensures transaction.client !in old(state) ==> fresh(state[transaction.client])
      // a known client's account is updated in place, not replaced
      ensures transaction.client in old(state) ==> state[transaction.client] == old(state[transaction.client])
      // every other client keeps its account object, and its contents
      ensures forall k :: k in old(state) && k != transaction.client ==> state[k] == old(state[k])
      ensures forall k :: k in old(state) && k != transaction.client ==> state[k].Value() == old(state[k].Value())
      // the routed account (a new one for a new client) receives the transaction
      ensures var before := if transaction.client in old(state) then old(state[transaction.client].Value()) else NewAccount(transaction.client);
        state[transaction.client].Value() == ApplyTransaction(before, transaction).value
    {
      var c := transaction.client;
      if c !in state {
        var account := new ClientAccount(c);
        state := state[c := account];
      }
      var client := state[c];
      var r := client.AddTransaction(transaction);
      // the routed account is the transaction's own, so it cannot refuse it
      assert r.Ok?;
    }

    /** Routes a dispute action to its client's account, opening the account
        first when the client is new, even if the action then does nothing. */
    method AddDisputeAction(action: DisputeAction)
      requires Valid()
      modifies this, state.Values
      ensures Valid()
      ensures state.Keys == old(state.Keys) + {action.client}
      ensures action.client !in old(state) ==> fresh(state[action.client])
      ensures action.client in old(state) ==> state[action.client] == old(state[action.client])
      ensures forall k :: k in old(state) && k != action.client ==> state[k] == old(state[k])
      ensures forall k :: k in old(state) && k != action.client ==> state[k].Value() == old(state[k].Value())
      ensures var before := if action.client in old(state) then old(state[action.client].Value()) else NewAccount(action.client);
        state[action.client].Value() == ApplyDisputeAction(before, action).value
    {
      var c := action.client;
      if c !in state {
        var account := new ClientAccount(c);
        state := state[c := account];
      }
      var client := state[c];
      var r := client.AddDisputeAction(action);
      assert r.Ok?;
    }

    /** The account of `client`, if any event has ever named it. */
    function GetClientState(client: ClientId): (r: Option<ClientAccount>)
      reads this
      requires Valid()
      ensures r.Some? <==> client in state
      ensures r.Some? ==> r.value.id == client && r.value in state.Values
    {
      if client in state then Some(state[client]) else None
    }

    /** All accounts, one per client seen, in no particular order. */
    function GetAllClientStates(): (r: set<ClientAccount>)
      reads this
      requires Valid()
      ensures |r| == |state|
      ensures forall c :: c in state ==> state[c] in r
      ensures r <= state.Values
    {
      ValuesCardinality(state);
      state.Values
    }
  }

  /** A map whose values name their own keys has as many values as keys. */
  lemma {:induction false} ValuesCardinality(m: map<ClientId, ClientAccount>)
    requires forall c :: c in m ==> m[c].id == c
    ensures |m.Values| == |m.Keys|
  {
    if m != map[] {
      var c :| c in m;
      var rest := m - {c};
      ValuesCardinality(rest);
      assert m.Values == rest.Values + {m[c]};
      assert m[c] !in rest.Values;
      assert m.Keys == rest.Keys + {c};
    }
  }
}
