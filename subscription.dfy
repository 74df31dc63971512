/** The subscription contract: a catalogue of plans under increasing ids and
    one current subscription window per account. */
module Subscription {
  import opened Outcomes

  /** 24 * 60 * 60: a plan's duration is in days, subscription times in seconds. */
  const SecondsPerDay: nat := 86400

  /** A plan as `create-plan` stores it; `duration` is in days. */
  datatype Plan = Plan(name: string, price: nat, duration: nat, features: seq<string>)

  /** An account's subscription window, in whole seconds. */
  datatype Record = Record(planId: nat, startTime: nat, endTime: nat)

  /** The whole contract state as a value: `lastPlanId`, `subscriptionPlans`
      and `userSubscriptions`. */
  datatype Registry = Registry(
    lastPlanId: nat,
    plans: map<nat, Plan>,
    subscriptions: map<Principal, Record>)
  {
    /** The registry's invariant: the plan ids in use are exactly
        1..lastPlanId, and every subscription names an existing plan and
        ends that plan's duration after it started. */
    ghost predicate Valid() {
      && (forall id :: id in plans <==> 1 <= id <= lastPlanId)
      && (forall u :: u in subscriptions ==>
            && subscriptions[u].planId in plans
            && subscriptions[u].endTime
               == subscriptions[u].startTime + plans[subscriptions[u].planId].duration * SecondsPerDay)
    }

    /** `get-plan`: the plan stored under `planId`, or not-found. */
    function GetPlan(planId: nat): Result<Plan> {
      if planId in plans then Success(plans[planId]) else Failure(ErrNotFound)
    }

    /** `get-user-subscription`: the account's record, or not-found. */
    function GetUserSubscription(user: Principal): Result<Record> {
      if user in subscriptions then Success(subscriptions[user]) else Failure(ErrNotFound)
    }

    /** `is-subscription-active`: not-found without a record, otherwise
        whether `now` is strictly before the record's end. */
    function IsSubscriptionActive(user: Principal, now: nat): Result<bool> {
      if user !in subscriptions then Failure(ErrNotFound)
      else Success(now < subscriptions[user].endTime)
    }

    /** `create-plan`: always succeeds with the next plan id and stores the
        plan exactly as given under it; no other plan and no subscription
        changes. */
    function CreatePlan(name: string, price: nat, duration: nat, features: seq<string>): (r: (Registry, nat))
      ensures r.1 == lastPlanId + 1 && r.0.lastPlanId == r.1
      ensures r.0.GetPlan(r.1) == Success(Plan(name, price, duration, features))
      ensures forall id :: id != r.1 ==> r.0.GetPlan(id) == GetPlan(id)
      ensures forall u :: r.0.GetUserSubscription(u) == GetUserSubscription(u)
    {
      var planId := lastPlanId + 1;
      (this.(lastPlanId := planId, plans := plans[planId := Plan(name, price, duration, features)]), planId)
    }

    /** `subscribe`: not-found and no change when the plan does not exist;
        otherwise the sender's record, whatever it was, becomes the window
        from `now` to `now` plus the plan's duration in seconds, and nothing
        else changes. */
    function Subscribe(sender: Principal, planId: nat, now: nat): (r: (Registry, Result<bool>))
      ensures planId !in plans ==> r == (this, Failure(ErrNotFound))
      ensures planId in plans ==>
        && r.1 == Success(true)
        && r.0.GetUserSubscription(sender)
           == Success(Record(planId, now, now + plans[planId].duration * SecondsPerDay))
        && (forall u :: u != sender ==> r.0.GetUserSubscription(u) == GetUserSubscription(u))
        && r.0.plans == plans && r.0.lastPlanId == lastPlanId
    {
      if planId !in plans then
        (this, Failure(ErrNotFound))
      else
        var plan := plans[planId];
        var record := Record(planId, now, now + plan.duration * SecondsPerDay);
        (this.(subscriptions := subscriptions[sender := record]), Success(true))
    }
  }

  /** The state right after deployment (and after each test's reset). */
  function EmptyRegistry(): (r: Registry)
    ensures r.Valid()
    ensures forall id :: r.GetPlan(id) == Failure(ErrNotFound)
    ensures forall u :: r.GetUserSubscription(u) == Failure(ErrNotFound)
  {
    Registry(0, map[], map[])
  }

  /** `create-plan` keeps the invariant: the new id is fresh, so existing
      plans, and the windows computed from them, stay as they were. */
  lemma CreatePlanValid(g: Registry, name: string, price: nat, duration: nat, features: seq<string>)
    requires g.Valid()
    ensures g.CreatePlan(name, price, duration, features).0.Valid()
    ensures forall id :: id in g.plans ==> g.CreatePlan(name, price, duration, features).0.GetPlan(id) == g.GetPlan(id)
  {
  }

  /** `subscribe` keeps the invariant. */
  lemma SubscribeValid(g: Registry, sender: Principal, planId: nat, now: nat)
    requires g.Valid()
    ensures g.Subscribe(sender, planId, now).0.Valid()
  {
  }

  /** A successful subscription to a plan of positive duration ends after it
      starts, and is active when queried at the moment it was taken. */
  lemma SubscribeStartsActive(g: Registry, sender: Principal, planId: nat, now: nat)
    requires planId in g.plans && g.plans[planId].duration > 0
    ensures var r := g.Subscribe(sender, planId, now).0;
      && r.GetUserSubscription(sender).Success?
      && r.GetUserSubscription(sender).value.startTime < r.GetUserSubscription(sender).value.endTime
      && r.IsSubscriptionActive(sender, now) == Success(true)
  {
  }

  /** `is-subscription-active` agrees with `get-user-subscription`: not-found
      exactly when there is no record (which is not the same as false), and
      true exactly when `now` is strictly before the recorded end; at the end
      itself the subscription has expired. */
  lemma ActiveIffBeforeEnd(g: Registry, user: Principal, now: nat)
    ensures g.IsSubscriptionActive(user, now) == Failure(ErrNotFound)
            <==> g.GetUserSubscription(user) == Failure(ErrNotFound)
    ensures g.IsSubscriptionActive(user, now) == Success(true)
            <==> g.GetUserSubscription(user).Success? && now < g.GetUserSubscription(user).value.endTime
    ensures g.IsSubscriptionActive(user, now) == Success(false)
            <==> g.GetUserSubscription(user).Success? && g.GetUserSubscription(user).value.endTime <= now
  {
  }

  /** The class holds the same state in place, as the JavaScript module-level
      counter and `Map`s. `sender` stands for `tx.sender` and `now` for the
      clock floored to whole seconds. */
  class SubscriptionContract {
    var lastPlanId: nat
    var subscriptionPlans: map<nat, Plan>
    var userSubscriptions: map<Principal, Record>

    function State(): Registry
      reads this
    {
      Registry(lastPlanId, subscriptionPlans, userSubscriptions)
    }

    ghost predicate Valid()
      reads this
    {
      State().Valid()
    }

    /** Fresh contract: no plans, no subscriptions, counter at 0. */
    constructor ()
      ensures Valid()
      ensures State() == EmptyRegistry()
    {
      lastPlanId := 0;
      subscriptionPlans := map[];
      userSubscriptions := map[];
    }

    method CreatePlan(name: string, price: nat, duration: nat, features: seq<string>) returns (r: Result<nat>)
      requires Valid()
      modifies this
      ensures Valid()
      ensures var (next, planId) := old(State()).CreatePlan(name, price, duration, features);
        State() == next && r == Success(planId)
    {
      CreatePlanValid(State(), name, price, duration, features);
      lastPlanId := lastPlanId + 1;
      var planId := lastPlanId;
      subscriptionPlans := subscriptionPlans[planId := Plan(name, price, duration, features)];
      r := Success(planId);
    }

    method Subscribe(sender: Principal, planId: nat, now: nat) returns (r: Result<bool>)
      requires Valid()
      modifies this
      ensures Valid()
      ensures (State(), r) == old(State()).Subscribe(sender, planId, now)
    {
      SubscribeValid(State(), sender, planId, now);
      if planId !in subscriptionPlans {
        return Failure(ErrNotFound);
      }
      var plan := subscriptionPlans[planId];
      userSubscriptions := userSubscriptions[sender := Record(planId, now, now + plan.duration * SecondsPerDay)];
      r := Success(true);
    }

    method GetPlan(planId: nat) returns (r: Result<Plan>)
      ensures r == State().GetPlan(planId)
    {
      if planId in subscriptionPlans {
        r := Success(subscriptionPlans[planId]);
      } else {
        r := Failure(ErrNotFound);
      }
    }

    method GetUserSubscription(user: Principal) returns (r: Result<Record>)
      ensures r == State().GetUserSubscription(user)
    {
      if user in userSubscriptions {
        r := Success(userSubscriptions[user]);
      } else {
        r := Failure(ErrNotFound);
      }
    }

    method IsSubscriptionActive(user: Principal, now: nat) returns (r: Result<bool>)
      ensures r == State().IsSubscriptionActive(user, now)
    {
      if user !in userSubscriptions {
        return Failure(ErrNotFound);
      }
      r := Success(now < userSubscriptions[user].endTime);
    }
  }
}
