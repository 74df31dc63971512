/** The billing contract: prepaid balances per account, a receipt per payment
    and a single payment counter shared by all accounts. */
module Billing {
  import opened Outcomes

  /** The price every `process-payment` charges, whatever plan it names. */
  const PlanPrice: nat := 1000

  /** A payment receipt: amount charged, time in whole seconds, plan paid for. */
  datatype Receipt = Receipt(amount: nat, timestamp: nat, planId: nat)

  /** The whole contract state as a value: `userBalances`, `paymentHistory`
      (keyed by account and payment id) and `lastPaymentId`. */
  datatype Ledger = Ledger(
    balances: map<Principal, nat>,
    payments: map<(Principal, nat), Receipt>,
    lastPaymentId: nat)
  {
    /** The balance of `user`; an account never credited holds 0. */
    function BalanceOf(user: Principal): nat {
      if user in balances then balances[user] else 0
    }

    /** Some account holds a receipt with payment id `id`. */
    ghost predicate Issued(id: nat) {
      exists user :: (user, id) in payments
    }

    /** The ledger's invariant: every receipt charged the fixed price and
        carries an id in 1..lastPaymentId, no id is used by two receipts, and
        every id in that range has been used (ids are gapless). */
    ghost predicate Valid() {
      && (forall k :: k in payments ==> 1 <= k.1 <= lastPaymentId && payments[k].amount == PlanPrice)
      && (forall k1, k2 :: k1 in payments && k2 in payments && k1.1 == k2.1 ==> k1 == k2)
      && (forall id :: 1 <= id <= lastPaymentId ==> Issued(id))
    }

    /** `get-balance`: always succeeds. */
    function GetBalance(user: Principal): Result<nat> {
      Success(BalanceOf(user))
    }

    /** `get-payment`: the receipt stored under (`user`, `id`), or not-found. */
    function GetPayment(user: Principal, id: nat): Result<Receipt> {
      if (user, id) in payments then Success(payments[(user, id)]) else Failure(ErrNotFound)
    }

    /** `add-funds`: credits the sender; nothing else changes. */
    function AddFunds(sender: Principal, amount: nat): (r: Ledger)
      ensures r.BalanceOf(sender) == BalanceOf(sender) + amount
      ensures forall u :: u != sender ==> r.BalanceOf(u) == BalanceOf(u)
      ensures r.payments == payments && r.lastPaymentId == lastPaymentId
    {
      this.(balances := balances[sender := BalanceOf(sender) + amount])
    }

    /** `process-payment`: with less than the price on the sender's balance
        it fails and changes nothing; otherwise it debits the price, takes the
        next payment id and records exactly one new receipt under it. */
    function ProcessPayment(sender: Principal, planId: nat, now: nat): (r: (Ledger, Result<nat>))
      ensures BalanceOf(sender) < PlanPrice ==> r == (this, Failure(ErrInsufficientBalance))
      ensures BalanceOf(sender) >= PlanPrice ==>
        && r.1 == Success(lastPaymentId + 1)
        && r.0.lastPaymentId == lastPaymentId + 1
        && r.0.BalanceOf(sender) == BalanceOf(sender) - PlanPrice
        && (forall u :: u != sender ==> r.0.BalanceOf(u) == BalanceOf(u))
        && r.0.GetPayment(sender, lastPaymentId + 1) == Success(Receipt(PlanPrice, now, planId))
        && r.0.payments.Keys == payments.Keys + {(sender, lastPaymentId + 1)}
        && (forall k :: k in payments && k != (sender, lastPaymentId + 1) ==> r.0.payments[k] == payments[k])
    {
      var balance := BalanceOf(sender);
      if balance < PlanPrice then
        (this, Failure(ErrInsufficientBalance))
      else
        var paymentId := lastPaymentId + 1;
        var next := Ledger(
          balances[sender := balance - PlanPrice],
          payments[(sender, paymentId) := Receipt(PlanPrice, now, planId)],
          paymentId);
        (next, Success(paymentId))
    }
  }

  /** The state right after deployment (and after each test's reset). */
  function EmptyLedger(): (r: Ledger)
    ensures r.Valid()
    ensures forall u :: r.BalanceOf(u) == 0
    ensures forall u, id :: r.GetPayment(u, id) == Failure(ErrNotFound)
  {
    Ledger(map[], map[], 0)
  }

  /** `add-funds` keeps the invariant. */
  lemma AddFundsValid(l: Ledger, sender: Principal, amount: nat)
    requires l.Valid()
    ensures l.AddFunds(sender, amount).Valid()
  {
    var r := l.AddFunds(sender, amount);
    forall id | 1 <= id <= r.lastPaymentId ensures r.Issued(id) {
      assert l.Issued(id);
      var u :| (u, id) in l.payments;
      assert (u, id) in r.payments;
    }
  }

  /** `process-payment` keeps the invariant: the new id is above every id in
      use, so its key is fresh, no existing receipt is touched, and the new
      id closes the range 1..lastPaymentId. */
  lemma ProcessPaymentValid(l: Ledger, sender: Principal, planId: nat, now: nat)
    requires l.Valid()
    ensures l.ProcessPayment(sender, planId, now).0.Valid()
    ensures forall k :: k in l.payments ==> l.ProcessPayment(sender, planId, now).0.GetPayment(k.0, k.1) == l.GetPayment(k.0, k.1)
  {
    var r := l.ProcessPayment(sender, planId, now).0;
    if l.BalanceOf(sender) >= PlanPrice {
      var newKey := (sender, l.lastPaymentId + 1);
      assert newKey !in l.payments;
      forall id | 1 <= id <= r.lastPaymentId ensures r.Issued(id) {
        if id == r.lastPaymentId {
          assert newKey in r.payments;
        } else {
          assert l.Issued(id);
          var u :| (u, id) in l.payments;
          assert (u, id) in r.payments;
        }
      }
    }
  }

  /** On a valid ledger no receipt exists for an id that has not been issued
      (0, or above the counter), whoever asks. */
  lemma UnissuedPaymentNotFound(l: Ledger, user: Principal, id: nat)
    requires l.Valid()
    requires id == 0 || id > l.lastPaymentId
    ensures l.GetPayment(user, id) == Failure(ErrNotFound)
  {
  }

  /** Conversely, every issued id has a receipt for exactly one account. */
  lemma IssuedPaymentFound(l: Ledger, id: nat)
    requires l.Valid()
    requires 1 <= id <= l.lastPaymentId
    ensures exists u :: l.GetPayment(u, id).Success?
    ensures forall u1, u2 :: l.GetPayment(u1, id).Success? && l.GetPayment(u2, id).Success? ==> u1 == u2
  {
    assert l.Issued(id);
    var u :| (u, id) in l.payments;
    assert l.GetPayment(u, id).Success?;
  }

  /** The class holds the same state in place, as the JavaScript module-level
      `Map`s and counter. `sender` stands for `tx.sender` and `now` for the
      clock floored to whole seconds. */
  class BillingContract {
    var userBalances: map<Principal, nat>
    var paymentHistory: map<(Principal, nat), Receipt>
    var lastPaymentId: nat

    function State(): Ledger
      reads this
    {
      Ledger(userBalances, paymentHistory, lastPaymentId)
    }

    ghost predicate Valid()
      reads this
    {
      State().Valid()
    }

    /** Fresh contract: no balances, no receipts, counter at 0. */
    constructor ()
      ensures Valid()
      ensures State() == EmptyLedger()
    {
      userBalances := map[];
      paymentHistory := map[];
      lastPaymentId := 0;
    }

    method AddFunds(sender: Principal, amount: nat) returns (r: Result<bool>)
      requires Valid()
      modifies this
      ensures Valid()
      ensures r == Success(true)
      ensures State() == old(State()).AddFunds(sender, amount)
    {
      AddFundsValid(State(), sender, amount);
      var current := if sender in userBalances then userBalances[sender] else 0;
      userBalances := userBalances[sender := current + amount];
      r := Success(true);
    }

    method ProcessPayment(sender: Principal, planId: nat, now: nat) returns (r: Result<nat>)
      requires Valid()
      modifies this
      ensures Valid()
      ensures (State(), r) == old(State()).ProcessPayment(sender, planId, now)
    {
      ProcessPaymentValid(State(), sender, planId, now);
      var current := if sender in userBalances then userBalances[sender] else 0;
      if current < PlanPrice {
        return Failure(ErrInsufficientBalance);
      }
      userBalances := userBalances[sender := current - PlanPrice];
      lastPaymentId := lastPaymentId + 1;
      var paymentId := lastPaymentId;
      paymentHistory := paymentHistory[(sender, paymentId) := Receipt(PlanPrice, now, planId)];
      r := Success(paymentId);
    }

    method GetBalance(user: Principal) returns (r: Result<nat>)
      ensures r == State().GetBalance(user)
    {
      var current := if user in userBalances then userBalances[user] else 0;
      r := Success(current);
    }

    method GetPayment(user: Principal, paymentId: nat) returns (r: Result<Receipt>)
      ensures r == State().GetPayment(user, paymentId)
    {
      if (user, paymentId) in paymentHistory {
        r := Success(paymentHistory[(user, paymentId)]);
      } else {
        r := Failure(ErrNotFound);
      }
    }
  }
}
