/** Properties of the billing contract over any sequence of calls, and the
    scenarios its test suite exercises, replayed against the class. */
module BillingHistory {
  import opened Outcomes
  import opened Billing

  /** A state-changing call to the billing contract (the two queries change nothing). */
  datatype Call =
    | AddFundsCall(sender: Principal, amount: nat)
    | PaymentCall(sender: Principal, planId: nat, now: nat)

  function Apply(l: Ledger, c: Call): Ledger {
    match c
    case AddFundsCall(s, a) => l.AddFunds(s, a)
    case PaymentCall(s, p, t) => l.ProcessPayment(s, p, t).0
  }

  /** The ledger after performing `calls` in order. */
  function Run(l: Ledger, calls: seq<Call>): Ledger
    decreases |calls|
  {
    if calls == [] then l else Run(Apply(l, calls[0]), calls[1..])
  }

  /** The payment ids returned by the successful payments among `calls`, in order. */
  function IssuedIds(l: Ledger, calls: seq<Call>): seq<nat>
    decreases |calls|
  {
    if calls == [] then []
    else
      var first := match calls[0]
        case AddFundsCall(_, _) => []
        case PaymentCall(s, p, t) =>
          var res := l.ProcessPayment(s, p, t).1;
          if res.Success? then [res.value] else [];
      first + IssuedIds(Apply(l, calls[0]), calls[1..])
  }

  /** How much `user` deposited through `add-funds` among `calls`. */
  function DepositedBy(calls: seq<Call>, user: Principal): nat
    decreases |calls|
  {
    if calls == [] then 0
    else
      var first := match calls[0]
        case AddFundsCall(s, a) => if s == user then a else 0
        case PaymentCall(_, _, _) => 0;
      first + DepositedBy(calls[1..], user)
  }

  /** How many payments by `user` succeeded among `calls`. */
  function PaymentsBy(l: Ledger, calls: seq<Call>, user: Principal): nat
    decreases |calls|
  {
    if calls == [] then 0
    else
      var first := match calls[0]
        case AddFundsCall(_, _) => 0
        case PaymentCall(s, p, t) => if s == user && l.ProcessPayment(s, p, t).1.Success? then 1 else 0;
      first + PaymentsBy(Apply(l, calls[0]), calls[1..], user)
  }

  /** Every call keeps the ledger's invariant, so it holds after any history. */
  lemma {:induction false} RunValid(l: Ledger, calls: seq<Call>)
    requires l.Valid()
    ensures Run(l, calls).Valid()
    decreases |calls|
  {
    if calls != [] {
      match calls[0] {
        case AddFundsCall(s, a) => AddFundsValid(l, s, a);
        case PaymentCall(s, p, t) => ProcessPaymentValid(l, s, p, t);
      }
      RunValid(Apply(l, calls[0]), calls[1..]);
    }
  }

  /** Receipts are immutable: whatever happens next, an existing receipt is
      still found, unchanged, under the same key. */
  lemma {:induction false} RunKeepsReceipts(l: Ledger, calls: seq<Call>)
    requires l.Valid()
    ensures forall k :: k in l.payments ==> Run(l, calls).GetPayment(k.0, k.1) == l.GetPayment(k.0, k.1)
    decreases |calls|
  {
    if calls != [] {
      var next := Apply(l, calls[0]);
      match calls[0] {
        case AddFundsCall(s, a) => AddFundsValid(l, s, a);
        case PaymentCall(s, p, t) => ProcessPaymentValid(l, s, p, t);
      }
      RunKeepsReceipts(next, calls[1..]);
      forall k | k in l.payments
        ensures Run(l, calls).GetPayment(k.0, k.1) == l.GetPayment(k.0, k.1)
      {
        assert next.GetPayment(k.0, k.1) == l.GetPayment(k.0, k.1);
        assert k in next.payments;
      }
    }
  }

  /** Payment ids are handed out one after another across all accounts: the
      i-th successful payment gets lastPaymentId + 1 + i, so the ids are
      strictly increasing and gapless, and the counter ends at the last one. */
  lemma {:induction false} IssuedIdsGapless(l: Ledger, calls: seq<Call>)
    ensures Run(l, calls).lastPaymentId == l.lastPaymentId + |IssuedIds(l, calls)|
    ensures forall i :: 0 <= i < |IssuedIds(l, calls)| ==> IssuedIds(l, calls)[i] == l.lastPaymentId + 1 + i
    ensures forall i, j :: 0 <= i < j < |IssuedIds(l, calls)| ==> IssuedIds(l, calls)[i] < IssuedIds(l, calls)[j]
    decreases |calls|
  {
    if calls != [] {
      var next := Apply(l, calls[0]);
      IssuedIdsGapless(next, calls[1..]);
    }
  }

  /** No balance is created or lost: what an account holds plus the price of
      every payment it made equals what it held before plus what it deposited. */
  lemma {:induction false} BalanceConserved(l: Ledger, calls: seq<Call>, user: Principal)
    ensures Run(l, calls).BalanceOf(user) + PlanPrice * PaymentsBy(l, calls, user)
         == l.BalanceOf(user) + DepositedBy(calls, user)
    decreases |calls|
  {
    if calls != [] {
      BalanceConserved(Apply(l, calls[0]), calls[1..], user);
    }
  }

  /** Two deposits add up. */
  lemma AddFundsAccumulates(l: Ledger, user: Principal, a: nat, b: nat)
    ensures l.AddFunds(user, a).AddFunds(user, b).GetBalance(user) == Success(l.BalanceOf(user) + a + b)
  {
  }

  /** Deposit 2000, pay for plan 1: the payment gets id 1, the balance drops
      to 1000 and the receipt records 1000 for plan 1 at that time. */
  method PaymentScenario(user: Principal, now: nat)
    returns (id: Result<nat>, balance: Result<nat>, receipt: Result<Receipt>)
    ensures id == Success(1)
    ensures balance == Success(1000)
    ensures receipt == Success(Receipt(1000, now, 1))
  {
    var contract := new BillingContract();
    var _ := contract.AddFunds(user, 2000);
    id := contract.ProcessPayment(user, 1, now);
    balance := contract.GetBalance(user);
    receipt := contract.GetPayment(user, 1);
  }

  /** Deposit 500, try to pay: insufficient balance, and the 500 stay. */
  method InsufficientBalanceScenario(user: Principal, now: nat)
    returns (id: Result<nat>, balance: Result<nat>, receipt: Result<Receipt>)
    ensures id == Failure(ErrInsufficientBalance)
    ensures balance == Success(500)
    ensures receipt == Failure(ErrNotFound)
  {
    var contract := new BillingContract();
    var _ := contract.AddFunds(user, 500);
    id := contract.ProcessPayment(user, 1, now);
    balance := contract.GetBalance(user);
    receipt := contract.GetPayment(user, 1);
  }

  /** A deposit of 1500 reads back as 1500; an unknown payment is not found. */
  method QueryScenario(user: Principal)
    returns (balance: Result<nat>, receipt: Result<Receipt>)
    ensures balance == Success(1500)
    ensures receipt == Failure(ErrNotFound)
  {
    var contract := new BillingContract();
    var _ := contract.AddFunds(user, 1500);
    balance := contract.GetBalance(user);
    receipt := contract.GetPayment(user, 999);
  }
}
